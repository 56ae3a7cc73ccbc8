/**
  The static helpers of `MetricsCalculator`: inflation-adjusted gold price,
  gold/S&P ratio, breakeven inflation, rolling z-score and row-count momentum.
  They are vectorised pandas expressions in the source, so here they are pure
  functions over series.  Arithmetic is exact: where pandas would divide by zero
  and produce an infinity, the model yields an undefined entry.
 */
module DerivedMetrics {
  import opened Wrappers
  import opened Frames

  /** Elementwise division of two cells; undefined when either is NaN or the divisor is zero. */
  function Div(a: Option<real>, b: Option<real>): (r: Option<real>)
    ensures r.Some? <==> a.Some? && b.Some? && b.value != 0.0
    ensures r.Some? ==> r.value * b.value == a.value
  {
    if a.Some? && b.Some? && b.value != 0.0 then Some(a.value / b.value) else None
  }

  /** Elementwise subtraction of two cells; NaN in either gives NaN. */
  function Sub(a: Option<real>, b: Option<real>): (r: Option<real>)
    ensures r.Some? <==> a.Some? && b.Some?
    ensures r.Some? ==> r.value + b.value == a.value
  {
    if a.Some? && b.Some? then Some(a.value - b.value) else None
  }

  // ---------------------------------------------------------------------------
  // Inflation-adjusted price, ratio, spread
  // ---------------------------------------------------------------------------

  /**
    `calculate_real_gold_price`: CPI is normalised to 100 at the first row and
    gold is divided by the normalised index over 100.  The factors 100 cancel in
    exact arithmetic, so the entry at row i is gold[i] / (cpi[i] / cpi[0]).
    With both columns present the source reads `cpi.iloc[0]`, so the frame must
    then have a row (its caller never passes an empty frame).
   */
  function RealGoldPrice(f: Frame): (r: Series)
    requires WellFormed(f)
    requires GoldSpot in f.columns && Cpi in f.columns ==> |f.rows| > 0
    ensures GoldSpot !in f.columns || Cpi !in f.columns ==> r == []
    ensures GoldSpot in f.columns && Cpi in f.columns ==> |r| == |f.rows|
    ensures forall i :: 0 <= i < |r| ==>
      (r[i].Some? <==>
         f.rows[i].values[GoldSpot].Some? && f.rows[i].values[Cpi].Some? && f.rows[i].values[Cpi].value != 0.0 &&
         f.rows[0].values[Cpi].Some? && f.rows[0].values[Cpi].value != 0.0)
    ensures forall i :: 0 <= i < |r| && r[i].Some? ==>
      r[i].value * f.rows[i].values[Cpi].value == f.rows[i].values[GoldSpot].value * f.rows[0].values[Cpi].value
  {
    if GoldSpot !in f.columns || Cpi !in f.columns then []
    else
      var gold := Col(f, GoldSpot);
      var cpi := Col(f, Cpi);
      seq(|f.rows|, i requires 0 <= i < |f.rows| => Div(gold[i], Div(cpi[i], cpi[0])))
  }

  /** The real price at the first row is the spot price itself. */
  lemma RealGoldPriceAtFirstRow(f: Frame)
    requires WellFormed(f) && GoldSpot in f.columns && Cpi in f.columns && |f.rows| > 0
    requires f.rows[0].values[Cpi].Some? && f.rows[0].values[Cpi].value != 0.0
    ensures RealGoldPrice(f)[0] == f.rows[0].values[GoldSpot]
  {
    var r := RealGoldPrice(f);
    var c0 := f.rows[0].values[Cpi].value;
    if r[0].Some? {
      assert r[0].value * c0 == f.rows[0].values[GoldSpot].value * c0;
    }
  }

  /** A missing first CPI value makes every real price undefined. */
  lemma RealGoldPriceWithoutBaseCpi(f: Frame)
    requires WellFormed(f) && GoldSpot in f.columns && Cpi in f.columns && |f.rows| > 0
    requires f.rows[0].values[Cpi].None?
    ensures forall i :: 0 <= i < |RealGoldPrice(f)| ==> RealGoldPrice(f)[i].None?
  {
  }

  /** `calculate_gold_sp_ratio`: gold / S&P 500 row by row; empty when a column is absent. */
  function GoldSpRatio(f: Frame): (r: Series)
    requires WellFormed(f)
    ensures GoldSpot !in f.columns || Sp500 !in f.columns ==> r == []
    ensures GoldSpot in f.columns && Sp500 in f.columns ==> |r| == |f.rows|
    ensures forall i :: 0 <= i < |r| ==>
      (r[i].Some? <==>
         f.rows[i].values[GoldSpot].Some? && f.rows[i].values[Sp500].Some? && f.rows[i].values[Sp500].value != 0.0)
    ensures forall i :: 0 <= i < |r| && r[i].Some? ==>
      r[i].value * f.rows[i].values[Sp500].value == f.rows[i].values[GoldSpot].value
  {
    if GoldSpot !in f.columns || Sp500 !in f.columns then []
    else
      var gold := Col(f, GoldSpot);
      var sp := Col(f, Sp500);
      seq(|f.rows|, i requires 0 <= i < |f.rows| => Div(gold[i], sp[i]))
  }

  /** `calculate_breakeven_inflation`: nominal minus real yield; empty when a column is absent. */
  function BreakevenInflation(f: Frame): (r: Series)
    requires WellFormed(f)
    ensures NominalYield !in f.columns || RealYield !in f.columns ==> r == []
    ensures NominalYield in f.columns && RealYield in f.columns ==> |r| == |f.rows|
    ensures forall i :: 0 <= i < |r| ==>
      (r[i].Some? <==> f.rows[i].values[NominalYield].Some? && f.rows[i].values[RealYield].Some?)
    ensures forall i :: 0 <= i < |r| && r[i].Some? ==>
      r[i].value + f.rows[i].values[RealYield].value == f.rows[i].values[NominalYield].value
  {
    if NominalYield !in f.columns || RealYield !in f.columns then []
    else
      var nominal := Col(f, NominalYield);
      var realYield := Col(f, RealYield);
      seq(|f.rows|, i requires 0 <= i < |f.rows| => Sub(nominal[i], realYield[i]))
  }

  // ---------------------------------------------------------------------------
  // Rolling z-score
  // ---------------------------------------------------------------------------

  /** All values of xs are equal: exactly the case in which their sample variance is zero. */
  predicate Flat(xs: seq<real>)
  {
    forall k :: 0 <= k < |xs| ==> xs[k] == xs[0]
  }

  /**
    The rolling standard deviation is not computed (no square root here): it is
    any function that is non-negative on windows of two or more values and zero
    exactly when their sample variance is zero, that is, when they are all equal.
   */
  ghost predicate IsStd(std: seq<real> -> real)
  {
    forall xs: seq<real> :: |xs| >= 2 ==> std(xs) >= 0.0 && (std(xs) == 0.0 <==> Flat(xs))
  }

  /** First row of the trailing window of `window` rows that ends at row i. */
  function WindowStart(i: nat, window: nat): nat
  {
    if i + 1 >= window then i + 1 - window else 0
  }

  /** The defined (non-NaN) values of s[lo..hi], in order. */
  function Observed(s: Series, lo: nat, hi: nat): (xs: seq<real>)
    requires lo <= hi <= |s|
    ensures |xs| <= hi - lo
    decreases hi - lo
  {
    if lo == hi then []
    else if s[hi - 1].Some? then Observed(s, lo, hi - 1) + [s[hi - 1].value]
    else Observed(s, lo, hi - 1)
  }

  function Sum(xs: seq<real>): real
  {
    if xs == [] then 0.0 else Sum(xs[..|xs| - 1]) + xs[|xs| - 1]
  }

  function Mean(xs: seq<real>): real
    requires |xs| > 0
  {
    Sum(xs) / (|xs| as real)
  }

  /**
    `calculate_zscore` at row i: (value - rolling mean) / rolling std over the
    trailing `window` rows.  Undefined when the window holds fewer than
    `minPeriods` defined values, when the current value is NaN, when the sample
    std is NaN (fewer than two values) or when the std is zero (the source
    replaces 0 by NaN before dividing).
   */
  function ZScoreAt(s: Series, i: nat, window: nat, minPeriods: nat, std: seq<real> -> real): (r: Option<real>)
    requires i < |s| && minPeriods <= window && IsStd(std)
    ensures r.Some? <==>
      var xs := Observed(s, WindowStart(i, window), i + 1);
      s[i].Some? && |xs| >= minPeriods && |xs| >= 2 && !Flat(xs)
    ensures r.Some? ==>
      var xs := Observed(s, WindowStart(i, window), i + 1);
      r.value * std(xs) == s[i].value - Mean(xs) &&
      (r.value > 0.0 <==> s[i].value > Mean(xs)) &&
      (r.value < 0.0 <==> s[i].value < Mean(xs))
  {
    var xs := Observed(s, WindowStart(i, window), i + 1);
    if |xs| < minPeriods || |xs| < 2 || s[i].None? then None
    else
      var sd := std(xs);
      if sd == 0.0 then None
      else
        var z := (s[i].value - Mean(xs)) / sd;
        assert z * sd == s[i].value - Mean(xs);
        Some(z)
  }

  /** `calculate_zscore` over the whole series. */
  function ZScore(s: Series, window: nat, minPeriods: nat, std: seq<real> -> real): (r: Series)
    requires minPeriods <= window && IsStd(std)
    ensures |r| == |s|
    ensures forall i :: 0 <= i < |s| ==> r[i] == ZScoreAt(s, i, window, minPeriods, std)
  {
    seq(|s|, i requires 0 <= i < |s| => ZScoreAt(s, i, window, minPeriods, std))
  }

  /** Below `minPeriods` observations the z-score is undefined, never zero. */
  lemma ZScoreNeedsHistory(s: Series, i: nat, window: nat, minPeriods: nat, std: seq<real> -> real)
    requires i < |s| && minPeriods <= window && IsStd(std)
    requires i + 1 < minPeriods
    ensures ZScoreAt(s, i, window, minPeriods, std).None?
  {
    assert |Observed(s, WindowStart(i, window), i + 1)| <= i + 1;
  }

  /** A window of identical values has zero std, so the z-score there is undefined. */
  lemma ZScoreFlatWindow(s: Series, i: nat, window: nat, minPeriods: nat, std: seq<real> -> real, c: real)
    requires i < |s| && minPeriods <= window && IsStd(std)
    requires forall k :: WindowStart(i, window) <= k <= i ==> s[k] == None || s[k] == Some(c)
    ensures ZScoreAt(s, i, window, minPeriods, std).None?
  {
    var lo := WindowStart(i, window);
    var xs := Observed(s, lo, i + 1);
    ObservedWithin(s, lo, i + 1, c);
  }

  lemma {:induction false} ObservedWithin(s: Series, lo: nat, hi: nat, c: real)
    requires lo <= hi <= |s|
    requires forall k :: lo <= k < hi ==> s[k] == None || s[k] == Some(c)
    ensures forall k :: 0 <= k < |Observed(s, lo, hi)| ==> Observed(s, lo, hi)[k] == c
    decreases hi - lo
  {
    if lo < hi {
      ObservedWithin(s, lo, hi - 1, c);
    }
  }

  // ---------------------------------------------------------------------------
  // Momentum
  // ---------------------------------------------------------------------------

  /**
    `calculate_momentum`: current / value `days` rows back, minus one.  The
    lookback counts rows, not calendar days.  The source's fallback to the first
    row is guarded by the same length test as the early return and can never be
    taken, so it does not appear here.
   */
  function Momentum(s: Series, days: nat): (r: Option<real>)
    requires days >= 1
    ensures r.Some? <==>
      |s| >= days && s[|s| - 1].Some? && s[|s| - days].Some? && s[|s| - days].value != 0.0
    ensures r.Some? ==> (r.value + 1.0) * s[|s| - days].value == s[|s| - 1].value
  {
    if |s| < days then None
    else
      var current := s[|s| - 1];
      var past := s[|s| - days];
      if current.None? || past.None? || past.value == 0.0 then None
      else Some(current.value / past.value - 1.0)
  }

  /** For a positive past value, momentum is positive exactly when the series rose, negative when it fell. */
  lemma MomentumSign(s: Series, days: nat)
    requires days >= 1 && Momentum(s, days).Some?
    requires s[|s| - days].value > 0.0
    ensures Momentum(s, days).value > 0.0 <==> s[|s| - 1].value > s[|s| - days].value
    ensures Momentum(s, days).value < 0.0 <==> s[|s| - 1].value < s[|s| - days].value
  {
    var m := Momentum(s, days).value;
    var p := s[|s| - days].value;
    assert (m + 1.0) * p == s[|s| - 1].value;
    assert m * p == s[|s| - 1].value - p;
    if m > 0.0 { assert m * p > 0.0; }
    if m < 0.0 { assert m * p < 0.0; }
    if m == 0.0 { assert m * p == 0.0; }
  }
}
