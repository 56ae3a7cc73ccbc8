/**
  The regime scorer: four ordered threshold ladders (real yields, the dollar,
  central-bank buying, valuation) each append at most one `(label, weight,
  icon)` entry and add its weight to a running score; a first-match ladder then
  names the regime.  Every weight is a multiple of 0.25, so the score is kept
  in whole quarter-points.
 */
module RegimeScorer {
  import opened Wrappers
  import opened Frames
  import opened Snapshot
  import opened CentralBank

  // ---------------------------------------------------------------------------
  // Entries
  // ---------------------------------------------------------------------------

  /** ✅ ❌ ➖ ⚠️ 💡 */
  datatype Icon = Bullish | Bearish | Flat | Caution | Idea

  /** Every entry the ladders can append. */
  datatype Signal =
    | RealYieldsFallingSharply | RealYieldsFalling | RealYieldsRisingSharply | RealYieldsRising | RealYieldsStable
    | UsdWeakeningSharply | UsdWeakening | UsdStrengtheningSharply | UsdStrengthening | UsdStable
    | CbDataStale(daysOld: int) | StrongCbBuying | ModerateCbBuying | CbSelling | WeakCbBuying | CbDataMissing
    | Overvalued | ElevatedValuation | Undervalued

  /** The weight of an entry in quarter-points (+2 is 8, +0.75 is 3). */
  function Weight(s: Signal): int
  {
    match s
    case RealYieldsFallingSharply => 8
    case RealYieldsFalling => 4
    case RealYieldsRisingSharply => -8
    case RealYieldsRising => -4
    case RealYieldsStable => 0
    case UsdWeakeningSharply => 6
    case UsdWeakening => 3
    case UsdStrengtheningSharply => -6
    case UsdStrengthening => -3
    case UsdStable => 0
    case CbDataStale(_) => 0
    case StrongCbBuying => 8
    case ModerateCbBuying => 4
    case CbSelling => -4
    case WeakCbBuying => 0
    case CbDataMissing => 0
    case Overvalued => -4
    case ElevatedValuation => 0
    case Undervalued => 0
  }

  function IconOf(s: Signal): Icon
  {
    match s
    case RealYieldsFallingSharply | RealYieldsFalling | UsdWeakeningSharply | UsdWeakening
      | StrongCbBuying | ModerateCbBuying => Bullish
    case RealYieldsRisingSharply | RealYieldsRising | UsdStrengtheningSharply | UsdStrengthening | CbSelling => Bearish
    case RealYieldsStable | UsdStable | WeakCbBuying => Flat
    case CbDataStale(_) | CbDataMissing | Overvalued | ElevatedValuation => Caution
    case Undervalued => Idea
  }

  /** The decimal text of a non-negative integer. */
  function NatText(n: nat): (t: string)
    ensures |t| > 0
  {
    var d := ['0' + (n % 10) as char];
    if n < 10 then d else NatText(n / 10) + d
  }

  function IntText(n: int): string
  {
    if n < 0 then "-" + NatText(-n) else NatText(n)
  }

  function Label(s: Signal): string
  {
    match s
    case RealYieldsFallingSharply => "Real yields falling sharply"
    case RealYieldsFalling => "Real yields falling"
    case RealYieldsRisingSharply => "Real yields rising sharply"
    case RealYieldsRising => "Real yields rising"
    case RealYieldsStable => "Real yields stable"
    case UsdWeakeningSharply => "USD weakening sharply"
    case UsdWeakening => "USD weakening"
    case UsdStrengtheningSharply => "USD strengthening sharply"
    case UsdStrengthening => "USD strengthening"
    case UsdStable => "USD stable"
    case CbDataStale(days) => "CB data stale (" + IntText(days) + " days)"
    case StrongCbBuying => "Strong CB buying >250t"
    case ModerateCbBuying => "Moderate CB buying"
    case CbSelling => "CB selling"
    case WeakCbBuying => "Weak CB buying"
    case CbDataMissing => "CB data missing"
    case Overvalued => "Overvalued (z-score >1.5)"
    case ElevatedValuation => "Elevated valuation (z-score >1.0)"
    case Undervalued => "Undervalued (z-score <-1.0)"
  }

  /** One `(label, weight, icon)` tuple of the component list. */
  datatype Component = Component(text: string, weight: real, icon: Icon)

  function Render(s: Signal): Component
  {
    Component(Label(s), Weight(s) as real / 4.0, IconOf(s))
  }

  function RenderAll(signals: seq<Signal>): (cs: seq<Component>)
    ensures |cs| == |signals|
    ensures forall k :: 0 <= k < |signals| ==> cs[k] == Render(signals[k])
  {
    seq(|signals|, k requires 0 <= k < |signals| => Render(signals[k]))
  }

  // ---------------------------------------------------------------------------
  // The four ladders, as reference definitions
  // ---------------------------------------------------------------------------

  /** `metrics.get(key, 0)`: an absent key reads as 0. */
  function Reading(metrics: Metrics, key: Key): (v: MetricValue)
    ensures key !in metrics ==> v == Number(0.0)
    ensures key in metrics ==> v == metrics[key]
  {
    if key in metrics then metrics[key] else Number(0.0)
  }

  /** A value the ladders can compare: a number, NaN (every comparison false) or None. */
  predicate Comparable(v: MetricValue)
  {
    v.Number? || v.NaN? || v.Null?
  }

  /** The shared momentum ladder in steps: +2 sharply falling .. -2 sharply rising. */
  function MomentumStep(x: real): (step: int)
    ensures -2 <= step <= 2
    ensures step > 0 <==> x < 0.0
    ensures step < 0 <==> x > 0.0
    ensures step == 2 <==> x < -0.02
    ensures step == -2 <==> x > 0.02
  {
    if x < -0.02 then 2
    else if x < 0.0 then 1
    else if x > 0.02 then -2
    else if x > 0.0 then -1
    else 0
  }

  predicate IsRealYieldSignal(s: Signal)
  {
    s.RealYieldsFallingSharply? || s.RealYieldsFalling? || s.RealYieldsRisingSharply? || s.RealYieldsRising? || s.RealYieldsStable?
  }

  predicate IsUsdSignal(s: Signal)
  {
    s.UsdWeakeningSharply? || s.UsdWeakening? || s.UsdStrengtheningSharply? || s.UsdStrengthening? || s.UsdStable?
  }

  /**
    The real-yield entry: none for `None`; "stable" for NaN.  Within the
    real-yield entries the weight tells them apart, so the weight clause fixes
    which entry a number gives.
   */
  function RealYieldSignal(v: MetricValue): (s: Option<Signal>)
    requires Comparable(v)
    ensures s.None? <==> v.Null?
    ensures v.NaN? ==> s == Some(RealYieldsStable)
    ensures s.Some? ==> IsRealYieldSignal(s.value)
    ensures s.Some? ==> Weight(s.value) == if v.Number? then 4 * MomentumStep(v.x) else 0
  {
    if v.Null? then None
    else if v.NaN? then Some(RealYieldsStable)
    else
      match MomentumStep(v.x)
      case 2 => Some(RealYieldsFallingSharply)
      case 1 => Some(RealYieldsFalling)
      case -2 => Some(RealYieldsRisingSharply)
      case -1 => Some(RealYieldsRising)
      case _ => Some(RealYieldsStable)
  }

  /** The dollar entry: the same cuts as real yields, with weights ±1.5 and ±0.75. */
  function UsdSignal(v: MetricValue): (s: Option<Signal>)
    requires Comparable(v)
    ensures s.None? <==> v.Null?
    ensures v.NaN? ==> s == Some(UsdStable)
    ensures s.Some? ==> IsUsdSignal(s.value)
    ensures s.Some? ==> Weight(s.value) == if v.Number? then 3 * MomentumStep(v.x) else 0
  {
    if v.Null? then None
    else if v.NaN? then Some(UsdStable)
    else
      match MomentumStep(v.x)
      case 2 => Some(UsdWeakeningSharply)
      case 1 => Some(UsdWeakening)
      case -2 => Some(UsdStrengtheningSharply)
      case -1 => Some(UsdStrengthening)
      case _ => Some(UsdStable)
  }

  /** Within each momentum ladder no two entries share a weight, so the weight clauses fix the entry. */
  lemma LadderEntriesByWeight(a: Signal, b: Signal)
    requires (IsRealYieldSignal(a) && IsRealYieldSignal(b)) || (IsUsdSignal(a) && IsUsdSignal(b))
    requires Weight(a) == Weight(b)
    ensures a == b
  {
  }

  predicate IsCbSignal(s: Signal)
  {
    s.CbDataStale? || s.StrongCbBuying? || s.ModerateCbBuying? || s.CbSelling? || s.WeakCbBuying? || s.CbDataMissing?
  }

  /** The central-bank entry, always exactly one. */
  function CbSignal(cb: CbData): (s: Signal)
    ensures IsCbSignal(s)
    ensures s.CbDataMissing? <==> cb.status != Current && cb.status != Stale
    ensures -4 <= Weight(s) <= 8
  {
    if cb.status == Current || cb.status == Stale then
      var tonnes := if cb.Latest? then cb.tonnes else 0.0;
      if cb.Latest? && cb.isStale then CbDataStale(cb.daysOld)
      else if tonnes > 250.0 then StrongCbBuying
      else if tonnes > 100.0 then ModerateCbBuying
      else if tonnes < 0.0 then CbSelling
      else WeakCbBuying
    else CbDataMissing
  }

  /** The valuation entry: none for an absent, `None` or NaN z-score, or one within ±1.0. */
  function ValuationSignal(metrics: Metrics): (s: Option<Signal>)
    ensures s.Some? ==> RealGoldZScore in metrics && metrics[RealGoldZScore].Number?
    ensures s.Some? ==> s.value == Overvalued || s.value == ElevatedValuation || s.value == Undervalued
    ensures s.Some? ==> -4 <= Weight(s.value) <= 0
  {
    if RealGoldZScore in metrics && metrics[RealGoldZScore].Number? then
      var z := metrics[RealGoldZScore].x;
      if z > 1.5 then Some(Overvalued)
      else if z > 1.0 then Some(ElevatedValuation)
      else if z < -1.0 then Some(Undervalued)
      else None
    else None
  }

  function OptionToSeq(o: Option<Signal>): (s: seq<Signal>)
    ensures |s| <= 1
    ensures o.Some? ==> s == [o.value]
    ensures o.None? ==> s == []
  {
    if o.Some? then [o.value] else []
  }

  /** The key the scorer reads for each momentum ladder. */
  const RealYieldKey := MomentumOf(RealYield, P30)
  const UsdKey := MomentumOf(Dxy, P30)

  /** What the scorer may be given: the values it compares are numbers, NaN or None. */
  predicate ScorerInput(metrics: Metrics)
  {
    && Comparable(Reading(metrics, RealYieldKey))
    && Comparable(Reading(metrics, UsdKey))
  }

  /** The momentum entries: real yields, then the dollar. */
  function MomentumSignals(metrics: Metrics): seq<Signal>
    requires ScorerInput(metrics)
  {
    OptionToSeq(RealYieldSignal(Reading(metrics, RealYieldKey))) + OptionToSeq(UsdSignal(Reading(metrics, UsdKey)))
  }

  /** The entries in category order: real yields, dollar, central banks, valuation. */
  function Signals(metrics: Metrics, cb: CbData): seq<Signal>
    requires ScorerInput(metrics)
  {
    MomentumSignals(metrics) + [CbSignal(cb)] + OptionToSeq(ValuationSignal(metrics))
  }

  function TotalWeight(signals: seq<Signal>): int
  {
    if signals == [] then 0 else TotalWeight(signals[..|signals| - 1]) + Weight(signals[|signals| - 1])
  }

  function SumOfWeights(cs: seq<Component>): real
  {
    if cs == [] then 0.0 else SumOfWeights(cs[..|cs| - 1]) + cs[|cs| - 1].weight
  }

  // ---------------------------------------------------------------------------
  // Bands
  // ---------------------------------------------------------------------------

  datatype Assessment = BULLISH | MILDLY_BULLISH | NEUTRAL | MILDLY_BEARISH | BEARISH

  /** First match wins: >= 3, >= 1, <= -3, <= -1, else neutral. */
  function AssessmentOf(score: real): (a: Assessment)
    ensures a == BULLISH <==> score >= 3.0
    ensures a == MILDLY_BULLISH <==> 1.0 <= score < 3.0
    ensures a == NEUTRAL <==> -1.0 < score < 1.0
    ensures a == MILDLY_BEARISH <==> -3.0 < score <= -1.0
    ensures a == BEARISH <==> score <= -3.0
  {
    if score >= 3.0 then BULLISH
    else if score >= 1.0 then MILDLY_BULLISH
    else if score <= -3.0 then BEARISH
    else if score <= -1.0 then MILDLY_BEARISH
    else NEUTRAL
  }

  function Conviction(a: Assessment): string
  {
    match a
    case BULLISH => "High conviction for long position"
    case MILDLY_BULLISH => "Moderate conviction"
    case BEARISH => "High conviction bearish"
    case MILDLY_BEARISH => "Caution warranted"
    case NEUTRAL => "Mixed signals"
  }

  function Action(a: Assessment): string
  {
    match a
    case BULLISH => "Consider increasing allocation"
    case MILDLY_BULLISH => "Maintain or slightly increase position"
    case BEARISH => "Consider reducing position"
    case MILDLY_BEARISH => "Maintain or reduce exposure"
    case NEUTRAL => "Hold current position"
  }

  /** Bands ordered from bearish (0) to bullish (4). */
  function Rank(a: Assessment): nat
  {
    match a
    case BEARISH => 0
    case MILDLY_BEARISH => 1
    case NEUTRAL => 2
    case MILDLY_BULLISH => 3
    case BULLISH => 4
  }

  // ---------------------------------------------------------------------------
  // round(score, 2)
  // ---------------------------------------------------------------------------

  /** The nearest integer, halves to the even neighbour. */
  function RoundHalfEven(y: real): (n: int)
    ensures -0.5 <= y - n as real <= 0.5
  {
    var f := y.Floor;
    var frac := y - f as real;
    if frac < 0.5 then f
    else if frac > 0.5 then f + 1
    else if f % 2 == 0 then f else f + 1
  }

  /** `round(x, 2)`: the nearest multiple of 0.01. */
  function Round2(x: real): (r: real)
    ensures -0.005 <= x - r <= 0.005
  {
    RoundHalfEven(x * 100.0) as real / 100.0
  }

  /** Rounding to cents leaves a whole number of quarter-points unchanged. */
  lemma Round2OfQuarters(q: int)
    ensures Round2(q as real / 4.0) == q as real / 4.0
  {
    var y := (q as real / 4.0) * 100.0;
    assert y == (25 * q) as real;
    assert y.Floor == 25 * q;
  }

  // ---------------------------------------------------------------------------
  // calculate_regime_score
  // ---------------------------------------------------------------------------

  datatype Regime = Regime(
    score: real, assessment: Assessment, conviction: string, action: string, components: seq<Component>)

  /** The two momentum ladders: an entry each unless the value is None. */
  method MomentumComponents(metrics: Metrics) returns (quarters: int, components: seq<Component>)
    requires ScorerInput(metrics)
    ensures quarters == TotalWeight(MomentumSignals(metrics))
    ensures components == RenderAll(MomentumSignals(metrics))
  {
    quarters := 0;
    components := [];
    ghost var signals: seq<Signal> := [];
    assert RenderAll([]) == [];

    // Real yields, weight 2
    var ry := RealYieldSignal(Reading(metrics, RealYieldKey));
    if ry.Some? {
      Appended(signals, ry.value);
      quarters := quarters + Weight(ry.value);
      components := components + [Render(ry.value)];
      signals := signals + [ry.value];
    }
    assert signals == OptionToSeq(ry);

    // The dollar, weight 1.5
    var usd := UsdSignal(Reading(metrics, UsdKey));
    if usd.Some? {
      Appended(signals, usd.value);
      quarters := quarters + Weight(usd.value);
      components := components + [Render(usd.value)];
      signals := signals + [usd.value];
    }
    assert signals == OptionToSeq(ry) + OptionToSeq(usd);
  }

  /**
    The four ladders run in order, each adding its entry's weight to the
    running score (in quarter-points) and appending the entry.
   */
  method CollectComponents(metrics: Metrics, cb: CbData) returns (quarters: int, components: seq<Component>)
    requires ScorerInput(metrics)
    ensures quarters == TotalWeight(Signals(metrics, cb))
    ensures components == RenderAll(Signals(metrics, cb))
  {
    quarters, components := MomentumComponents(metrics);

    // Central-bank buying (weight 2): always one entry.
    var cbSignal := CbSignal(cb);
    quarters := quarters + Weight(cbSignal);
    components := components + [Render(cbSignal)];

    // Valuation risk: at most one entry.
    var valuation := ValuationSignal(metrics);
    if valuation.Some? {
      quarters := quarters + Weight(valuation.value);
      components := components + [Render(valuation.value)];
    }
    ThreeParts(MomentumSignals(metrics), cbSignal, valuation);
  }

  /**
    The regime for a metric map and the central-bank data.  The components are
    the four ladders' entries in category order, the score is the sum of their
    weights, lies within ±5.5 and is a whole number of quarter-points, and the
    band with its conviction and action follows from the score.
   */
  method CalculateRegimeScore(metrics: Metrics, cb: CbData) returns (r: Regime)
    requires ScorerInput(metrics)
    ensures r.components == RenderAll(Signals(metrics, cb))
    ensures r.score == SumOfWeights(r.components)
    ensures r.score == TotalWeight(Signals(metrics, cb)) as real / 4.0
    ensures -5.5 <= r.score <= 5.5
    ensures r.assessment == AssessmentOf(r.score)
    ensures r.conviction == Conviction(r.assessment) && r.action == Action(r.assessment)
  {
    var quarters, components := CollectComponents(metrics, cb);
    ComponentsSum(Signals(metrics, cb));
    ScoreWithinBounds(metrics, cb);
    Round2OfQuarters(quarters);

    var score := Round2(quarters as real / 4.0);
    var assessment := AssessmentOf(score);
    r := Regime(score, assessment, Conviction(assessment), Action(assessment), components);
  }

  /** A list of entries, one more entry and at most one further entry, added up and rendered. */
  lemma ThreeParts(m: seq<Signal>, c: Signal, o: Option<Signal>)
    ensures TotalWeight(m + [c] + OptionToSeq(o)) == TotalWeight(m) + Weight(c) + LadderWeight(o)
    ensures RenderAll(m + [c] + OptionToSeq(o))
      == RenderAll(m) + [Render(c)] + (if o.Some? then [Render(o.value)] else [])
  {
    OptionParts(Some(c));
    OptionParts(o);
    TotalWeightAppend(m, [c]);
    TotalWeightAppend(m + [c], OptionToSeq(o));
    RenderAllAppend(m, [c]);
    RenderAllAppend(m + [c], OptionToSeq(o));
  }

  lemma RenderAllAppend(a: seq<Signal>, b: seq<Signal>)
    ensures RenderAll(a + b) == RenderAll(a) + RenderAll(b)
  {
  }

  /** Appending one entry adds its weight and its rendering. */
  lemma Appended(signals: seq<Signal>, s: Signal)
    ensures TotalWeight(signals + [s]) == TotalWeight(signals) + Weight(s)
    ensures RenderAll(signals + [s]) == RenderAll(signals) + [Render(s)]
  {
    assert (signals + [s])[..|signals|] == signals;
  }

  // ---------------------------------------------------------------------------
  // Structure of the component list
  // ---------------------------------------------------------------------------

  function CountCb(signals: seq<Signal>): nat
  {
    if signals == [] then 0
    else CountCb(signals[..|signals| - 1]) + (if IsCbSignal(signals[|signals| - 1]) then 1 else 0)
  }

  lemma {:induction false} CountCbAppend(a: seq<Signal>, b: seq<Signal>)
    ensures CountCb(a + b) == CountCb(a) + CountCb(b)
    decreases |b|
  {
    if b == [] {
      assert a + b == a;
    } else {
      CountCbAppend(a, b[..|b| - 1]);
      assert (a + b)[..|a + b| - 1] == a + b[..|b| - 1];
    }
  }

  lemma {:induction false} TotalWeightAppend(a: seq<Signal>, b: seq<Signal>)
    ensures TotalWeight(a + b) == TotalWeight(a) + TotalWeight(b)
    decreases |b|
  {
    if b == [] {
      assert a + b == a;
    } else {
      TotalWeightAppend(a, b[..|b| - 1]);
      assert (a + b)[..|a + b| - 1] == a + b[..|b| - 1];
    }
  }

  /**
    The list has between one and four entries; exactly one of them is the
    central-bank entry, which follows the momentum entries; the valuation ladder
    adds at most one entry.
   */
  lemma SignalsShape(metrics: Metrics, cb: CbData)
    requires ScorerInput(metrics)
    ensures var s := Signals(metrics, cb);
      && 1 <= |s| <= 4
      && CountCb(s) == 1
      && var k := |OptionToSeq(RealYieldSignal(Reading(metrics, RealYieldKey)))| + |OptionToSeq(UsdSignal(Reading(metrics, UsdKey)))|;
         k < |s| && s[k] == CbSignal(cb) && |s| - k - 1 <= 1
  {
    var ry := RealYieldSignal(Reading(metrics, RealYieldKey));
    var usd := UsdSignal(Reading(metrics, UsdKey));
    var a := OptionToSeq(ry);
    var b := OptionToSeq(usd);
    var v := OptionToSeq(ValuationSignal(metrics));
    OptionParts(ry);
    OptionParts(usd);
    OptionParts(ValuationSignal(metrics));
    OptionParts(Some(CbSignal(cb)));
    CountCbAppend(a, b);
    CountCbAppend(a + b, [CbSignal(cb)]);
    CountCbAppend(a + b + [CbSignal(cb)], v);
  }

  /** A ladder that appends at most one entry contributes that entry's weight and count. */
  lemma OptionParts(o: Option<Signal>)
    ensures TotalWeight(OptionToSeq(o)) == (if o.Some? then Weight(o.value) else 0)
    ensures CountCb(OptionToSeq(o)) == (if o.Some? && IsCbSignal(o.value) then 1 else 0)
  {
    if o.Some? {
      assert OptionToSeq(o)[..0] == [];
    }
  }

  /** The rendered weights add up to the quarter-point total. */
  lemma {:induction false} ComponentsSum(signals: seq<Signal>)
    ensures SumOfWeights(RenderAll(signals)) == TotalWeight(signals) as real / 4.0
  {
    if signals != [] {
      ComponentsSum(signals[..|signals| - 1]);
      assert RenderAll(signals)[..|signals| - 1] == RenderAll(signals[..|signals| - 1]);
    }
  }

  /** The score lies within ±5.5 (±22 quarter-points). */
  lemma ScoreWithinBounds(metrics: Metrics, cb: CbData)
    requires ScorerInput(metrics)
    ensures -22 <= TotalWeight(Signals(metrics, cb)) <= 22
  {
    SignalsWeight(metrics, cb);
  }

  /** The score is the sum of the four ladders' weights. */
  lemma SignalsWeight(metrics: Metrics, cb: CbData)
    requires ScorerInput(metrics)
    ensures TotalWeight(Signals(metrics, cb)) ==
      LadderWeight(RealYieldSignal(Reading(metrics, RealYieldKey)))
      + LadderWeight(UsdSignal(Reading(metrics, UsdKey)))
      + Weight(CbSignal(cb))
      + LadderWeight(ValuationSignal(metrics))
  {
    var ry := RealYieldSignal(Reading(metrics, RealYieldKey));
    var usd := UsdSignal(Reading(metrics, UsdKey));
    var c := [CbSignal(cb)];
    OptionParts(ry);
    OptionParts(usd);
    OptionParts(Some(CbSignal(cb)));
    OptionParts(ValuationSignal(metrics));
    TotalWeightAppend(OptionToSeq(ry), OptionToSeq(usd));
    TotalWeightAppend(OptionToSeq(ry) + OptionToSeq(usd), c);
    TotalWeightAppend(OptionToSeq(ry) + OptionToSeq(usd) + c, OptionToSeq(ValuationSignal(metrics)));
  }

  /** The weight a ladder contributes: nothing when it appends no entry. */
  function LadderWeight(o: Option<Signal>): int
  {
    if o.Some? then Weight(o.value) else 0
  }

  // ---------------------------------------------------------------------------
  // Properties of the ladders and bands
  // ---------------------------------------------------------------------------

  /** Falling momentum is never scored below rising momentum. */
  lemma MomentumStepAntitone(x: real, y: real)
    requires x <= y
    ensures MomentumStep(x) >= MomentumStep(y)
  {
  }

  /** The momentum cuts are symmetric about zero. */
  lemma MomentumStepSymmetric(x: real)
    ensures MomentumStep(-x) == -MomentumStep(x)
  {
  }

  /**
    Lower real-yield momentum never lowers the score: with everything else
    fixed, the score is antitone in the 30-day real-yield momentum.
   */
  lemma ScoreAntitoneInRealYields(metrics: Metrics, cb: CbData, x: real, y: real)
    requires ScorerInput(metrics)
    requires x <= y
    ensures ScorerInput(metrics[RealYieldKey := Number(x)]) && ScorerInput(metrics[RealYieldKey := Number(y)])
    ensures TotalWeight(Signals(metrics[RealYieldKey := Number(x)], cb))
         >= TotalWeight(Signals(metrics[RealYieldKey := Number(y)], cb))
  {
    var mx := metrics[RealYieldKey := Number(x)];
    var my := metrics[RealYieldKey := Number(y)];
    assert Reading(mx, UsdKey) == Reading(metrics, UsdKey) == Reading(my, UsdKey);
    assert ValuationSignal(mx) == ValuationSignal(metrics) == ValuationSignal(my);
    SignalsWeight(mx, cb);
    SignalsWeight(my, cb);
    MomentumStepAntitone(x, y);
  }

  /** Likewise a weaker dollar never lowers the score. */
  lemma ScoreAntitoneInDollar(metrics: Metrics, cb: CbData, x: real, y: real)
    requires ScorerInput(metrics)
    requires x <= y
    ensures ScorerInput(metrics[UsdKey := Number(x)]) && ScorerInput(metrics[UsdKey := Number(y)])
    ensures TotalWeight(Signals(metrics[UsdKey := Number(x)], cb))
         >= TotalWeight(Signals(metrics[UsdKey := Number(y)], cb))
  {
    var mx := metrics[UsdKey := Number(x)];
    var my := metrics[UsdKey := Number(y)];
    assert Reading(mx, RealYieldKey) == Reading(metrics, RealYieldKey) == Reading(my, RealYieldKey);
    assert ValuationSignal(mx) == ValuationSignal(metrics) == ValuationSignal(my);
    SignalsWeight(mx, cb);
    SignalsWeight(my, cb);
    MomentumStepAntitone(x, y);
  }

  /** More central-bank buying never lowers the central-bank weight. */
  lemma CbWeightMonotone(cb: CbData, t1: real, t2: real)
    requires cb.Latest?
    requires t1 <= t2
    ensures Weight(CbSignal(cb.(tonnes := t1))) <= Weight(CbSignal(cb.(tonnes := t2)))
  {
  }

  /** A higher score never lands in a more bearish band. */
  lemma AssessmentMonotone(s1: real, s2: real)
    requires s1 <= s2
    ensures Rank(AssessmentOf(s1)) <= Rank(AssessmentOf(s2))
  {
  }

  /**
    The valuation ladder against the z-score: no entry inside ±1.0, a zero-weight
    "elevated" entry in (1.0, 1.5], a −1 entry above 1.5 and a zero-weight
    "undervalued" entry below −1.0.
   */
  lemma ValuationCuts(metrics: Metrics, z: real)
    requires RealGoldZScore in metrics && metrics[RealGoldZScore] == Number(z)
    ensures ValuationSignal(metrics).None? <==> -1.0 <= z <= 1.0
    ensures ValuationSignal(metrics) == Some(ElevatedValuation) <==> 1.0 < z <= 1.5
    ensures ValuationSignal(metrics) == Some(Overvalued) <==> z > 1.5
    ensures ValuationSignal(metrics) == Some(Undervalued) <==> z < -1.0
    ensures LadderWeight(ValuationSignal(metrics)) == if z > 1.5 then -4 else 0
  {
  }

  /** A missing, `None` or NaN z-score adds no valuation entry. */
  lemma NoValuationWithoutZScore(metrics: Metrics)
    requires RealGoldZScore !in metrics || metrics[RealGoldZScore].Null? || metrics[RealGoldZScore].NaN?
    ensures ValuationSignal(metrics).None?
  {
  }

  /** A missing, unreadable or empty table reads as "CB data missing". */
  lemma CbMissingWithoutRows(file: CbFile, today: int)
    requires !(file.Rows? && file.rows != [])
    ensures CbSignal(LatestData(file, today)) == CbDataMissing
  {
  }

  /**
    A stale latest row gives a zero-weight "stale" entry carrying its age,
    whatever its tonnes; a current one is scored on its tonnes.
   */
  lemma CbSignalOfLatestRow(rows: seq<CbRow>, today: int)
    requires rows != []
    ensures var d := LatestData(Rows(rows), today);
      && (d.isStale ==> CbSignal(d) == CbDataStale(d.daysOld) && Weight(CbSignal(d)) == 0)
      && (!d.isStale ==>
            && (CbSignal(d) == StrongCbBuying <==> rows[|rows| - 1].tonnes > 250.0)
            && (CbSignal(d) == ModerateCbBuying <==> 100.0 < rows[|rows| - 1].tonnes <= 250.0)
            && (CbSignal(d) == WeakCbBuying <==> 0.0 <= rows[|rows| - 1].tonnes <= 100.0)
            && (CbSignal(d) == CbSelling <==> rows[|rows| - 1].tonnes < 0.0))
  {
  }

  /** The bounds ±5.5 are reached. */
  lemma ScoreBoundsAttained()
    ensures
      var cbStrong := Latest("Q3_2025", 300.0, "WGC", 0, 10, false, Current, []);
      var cbSelling := Latest("Q3_2025", -50.0, "WGC", 0, 10, false, Current, []);
      var bull := map[RealYieldKey := Number(-0.05), UsdKey := Number(-0.05)];
      var bear := map[RealYieldKey := Number(0.05), UsdKey := Number(0.05), RealGoldZScore := Number(2.0)];
      && ScorerInput(bull) && ScorerInput(bear)
      && TotalWeight(Signals(bull, cbStrong)) == 22
      && TotalWeight(Signals(bear, cbSelling)) == -22
  {
    var cbStrong := Latest("Q3_2025", 300.0, "WGC", 0, 10, false, Current, []);
    var cbSelling := Latest("Q3_2025", -50.0, "WGC", 0, 10, false, Current, []);
    var bull := map[RealYieldKey := Number(-0.05), UsdKey := Number(-0.05)];
    var bear := map[RealYieldKey := Number(0.05), UsdKey := Number(0.05), RealGoldZScore := Number(2.0)];
    assert Reading(bull, RealYieldKey) == Number(-0.05) && Reading(bull, UsdKey) == Number(-0.05);
    assert Reading(bear, RealYieldKey) == Number(0.05) && Reading(bear, UsdKey) == Number(0.05);
    assert bear[RealGoldZScore] == Number(2.0);
    SignalsWeight(bull, cbStrong);
    SignalsWeight(bear, cbSelling);
  }

  /**
    A sharp real-yield fall, a mild dollar fall, 300 tonnes of current
    central-bank buying and a z-score of 0.5 score 4.75: bullish, with three
    entries in category order and no valuation entry.
   */
  lemma WorkedExample()
    ensures
      var m := map[RealYieldKey := Number(-0.025), UsdKey := Number(-0.01), RealGoldZScore := Number(0.5)];
      var cb := Latest("Q3_2025", 300.0, "WGC", 0, 10, false, Current, []);
      && ScorerInput(m)
      && Signals(m, cb) == [RealYieldsFallingSharply, UsdWeakening, StrongCbBuying]
      && TotalWeight(Signals(m, cb)) == 19
      && AssessmentOf(19.0 / 4.0) == BULLISH
  {
    var m := map[RealYieldKey := Number(-0.025), UsdKey := Number(-0.01), RealGoldZScore := Number(0.5)];
    var cb := Latest("Q3_2025", 300.0, "WGC", 0, 10, false, Current, []);
    assert Reading(m, RealYieldKey) == Number(-0.025) && Reading(m, UsdKey) == Number(-0.01);
    assert m[RealGoldZScore] == Number(0.5);
    SignalsWeight(m, cb);
  }

  /**
    A momentum key the map lacks reads as 0 and yields a "stable" entry rather
    than no entry; only a stored `None` suppresses the entry.
   */
  lemma AbsentMomentumReadsStable(metrics: Metrics)
    requires RealYieldKey !in metrics && UsdKey !in metrics
    ensures ScorerInput(metrics)
    ensures MomentumSignals(metrics) == [RealYieldsStable, UsdStable]
    ensures ScorerInput(metrics[RealYieldKey := Null][UsdKey := Null])
    ensures MomentumSignals(metrics[RealYieldKey := Null][UsdKey := Null]) == []
  {
    var n := metrics[RealYieldKey := Null][UsdKey := Null];
    assert Reading(n, RealYieldKey) == Null && Reading(n, UsdKey) == Null;
  }
}
