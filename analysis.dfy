/** The filter pipeline: the rest of `enhanced_trend_analysis`. Each filter is a
    pure function from one verdict to the next; `Analyze` composes them in the
    script's order and `EnhancedTrendAnalysis` performs the same steps by
    reassigning local variables, as the script does. */
module Analysis {
  import opened Numeric
  import opened Types
  import opened Indicators
  import opened TrendClassifier
  import opened Aggregator

  /** What one cycle fetches from the market-data service. Empty series stand
      for failed fetches as well. The Bollinger width ratio of the last ten 1h
      closes and the day's high and low are computed outside the model. */
  datatype MarketData = MarketData(
    candles5m: seq<Candle>,
    candles15m: seq<Candle>,
    candles1h: seq<Candle>,
    candles4h: seq<Candle>,
    widthRatio1h: Option<real>,
    dailyHigh: Option<PositivePrice>,
    dailyLow: Option<PositivePrice>)

  /** The hash `enhanced_trend_analysis` returns. */
  datatype AnalysisResult = AnalysisResult(
    trend: Trend,
    confidence: Confidence,
    reason: Reason,
    rsi: real,
    rsiLabel: RsiLabel,
    alignment: Alignment,
    votes: Votes,
    currentPrice: real,
    dailyHigh: Option<PositivePrice>,
    dailyLow: Option<PositivePrice>,
    consolidationBypassed: bool)

  /** Confidence is high exactly when the trend is a direction, and never medium. */
  predicate Coherent(v: Verdict)
  {
    (v.confidence == High <==> v.trend.IsDirectional()) && v.confidence != Medium
  }

  /** What every filter may do to a verdict: keep its trend, or force sideways
      with low confidence. */
  predicate KeptOrVetoed(v: Verdict, w: Verdict)
  {
    w.trend == v.trend || (w.trend == Sideways && w.confidence == Low)
  }

  // ------------------------------------------------------------ consolidation

  const ConsolidationMinCandles: nat := 10

  /** Width-ratio threshold per aggressiveness tier. */
  function ConsolidationThreshold(t: Tier): real
  {
    match t
    case TierLow => 0.015
    case TierMedium => 0.0369
    case TierHigh => 0.054
    case TierOther => 0.0369
  }

  /** `is_consolidating?`: at least ten 1h candles, a width ratio, and a ratio
      below the tier's threshold. */
  function IsConsolidating(cfg: Config, candles1h: seq<Candle>, widthRatio: Option<real>): (r: bool)
    ensures r <==> cfg.consolidationFilter && |candles1h| >= ConsolidationMinCandles
                   && widthRatio.Some? && widthRatio.value < ConsolidationThreshold(cfg.tier)
  {
    if !cfg.consolidationFilter then false
    else if |candles1h| < ConsolidationMinCandles then false
    else match widthRatio
      case None => false
      case Some(ratio) => ratio < ConsolidationThreshold(cfg.tier)
  }

  /** The tiers are ordered: a market that counts as consolidating under LOW
      does so under MEDIUM, and one under MEDIUM does so under HIGH. */
  lemma ConsolidationTiersNested(cfg: Config, candles1h: seq<Candle>, widthRatio: Option<real>)
    ensures IsConsolidating(cfg.(tier := TierLow), candles1h, widthRatio)
            ==> IsConsolidating(cfg.(tier := TierMedium), candles1h, widthRatio)
    ensures IsConsolidating(cfg.(tier := TierMedium), candles1h, widthRatio)
            ==> IsConsolidating(cfg.(tier := TierHigh), candles1h, widthRatio)
  {
  }

  /** Population variance of a window of closes. */
  function Variance(window: seq<real>): real
    requires |window| > 0
  {
    var m := Mean(window);
    Mean(seq(|window|, i requires 0 <= i < |window| => (window[i] - m) * (window[i] - m)))
  }

  /** `w` is what `bollinger_band_width_ratio` returns for `window` with two
      standard deviations: the band width `4 * sd` over the mean, where `sd`
      is the square root of the population variance. */
  ghost predicate IsWidthRatio(window: seq<real>, sd: real, w: real)
  {
    |window| > 0 && sd >= 0.0 && sd * sd == Variance(window)
    && Mean(window) != 0.0 && w == 4.0 * sd / Mean(window)
  }

  lemma SquareMono(a: real, b: real)
    requires 0.0 <= a && 0.0 <= b
    ensures a < b <==> a * a < b * b
  {
    if a < b {
      assert a * (b - a) >= 0.0;
      assert b * (b - a) > 0.0;
    } else {
      assert b * (a - b) >= 0.0;
      assert a * (a - b) >= 0.0;
    }
  }

  /** Without a square root: for a window with a positive mean, the width ratio
      is below a positive threshold iff 16 times the variance is below the
      squared threshold times the squared mean. */
  lemma WidthRatioBelowThreshold(window: seq<real>, sd: real, w: real, threshold: real)
    requires IsWidthRatio(window, sd, w) && Mean(window) > 0.0 && threshold > 0.0
    ensures w < threshold <==> 16.0 * Variance(window) < threshold * threshold * Mean(window) * Mean(window)
  {
    var m := Mean(window);
    assert w * m == 4.0 * sd;
    assert w < threshold <==> w * m < threshold * m;
    SquareMono(4.0 * sd, threshold * m);
    assert (4.0 * sd) * (4.0 * sd) == 16.0 * Variance(window);
    assert (threshold * m) * (threshold * m) == threshold * threshold * m * m;
  }

  /** Consolidation filter: a unanimous alignment bypasses it (and says so);
      any other alignment is vetoed to sideways with low confidence. */
  function ApplyConsolidation(v: Verdict, alignment: Alignment, consolidating: bool): (w: Verdict)
    ensures KeptOrVetoed(v, w) && (Coherent(v) ==> Coherent(w))
    ensures w.bypassed <==> v.bypassed || (consolidating && alignment.IsUnanimous())
    ensures consolidating && !alignment.IsUnanimous() ==> w.trend == Sideways && w.reason == MarketConsolidating
    ensures !consolidating || alignment.IsUnanimous() ==> w.(bypassed := v.bypassed) == v
  {
    if !consolidating then v
    else if alignment.IsUnanimous() then v.(bypassed := true)
    else v.(trend := Sideways, confidence := Low, reason := MarketConsolidating)
  }

  // ------------------------------------------------------------ volatility

  const VolatilityMinCandles: nat := 20
  const ShortMaPeriod: nat := 6
  const LongMaPeriod: nat := 20
  const HighConfidenceAtrMultiplier: real := 0.1

  /** ATR multiplier per aggressiveness tier. */
  function BaseAtrMultiplier(t: Tier): real
  {
    match t
    case TierLow => 0.5
    case TierMedium => 1.0
    case TierHigh => 1.5
    case TierOther => 1.0
  }

  /** The moving average the volatility filter measures against: 20 bars for
      high confidence, 6 bars otherwise. */
  function FilterMa(candles5m: seq<Candle>, confidence: Confidence): real
    requires |candles5m| >= VolatilityMinCandles
  {
    var closes := Closes(candles5m);
    if confidence == High then Sma(closes, LongMaPeriod) else Sma(closes, ShortMaPeriod)
  }

  /** The ATR multiple the price must clear: 0.1 for high confidence, the tier's otherwise. */
  function FilterMultiplier(cfg: Config, confidence: Confidence): real
  {
    if confidence == High then HighConfidenceAtrMultiplier else BaseAtrMultiplier(cfg.tier)
  }

  /** `volatility_adjusted_trend`: keeps a direction only when the price stands
      far enough from the moving average on that direction's side. */
  function VolatilityAdjustedTrend(cfg: Config, trend: Trend, candles5m: seq<Candle>, price: real, confidence: Confidence): (r: Trend)
    ensures r == trend || r == Sideways
  {
    if !cfg.volatilityFilter then trend
    else match Atr(candles5m, AtrPeriod)
      case None => trend
      case Some(atr) =>
        if |candles5m| < VolatilityMinCandles then trend
        else
          KeepIfClear(trend, price, FilterMa(candles5m, confidence), atr * FilterMultiplier(cfg, confidence))
  }

  /** The comparison at the heart of the volatility filter: an uptrend needs
      the price at least `required` above the average, a downtrend at least
      `required` below it. */
  function KeepIfClear(trend: Trend, price: real, ma: real, required: real): (r: Trend)
    ensures r == Uptrend <==> trend == Uptrend && price - ma >= required
    ensures r == Downtrend <==> trend == Downtrend && ma - price >= required
    ensures r == trend || r == Sideways
  {
    match trend
    case Uptrend => if price - ma >= required then Uptrend else Sideways
    case Downtrend => if ma - price >= required then Downtrend else Sideways
    case Sideways => trend
  }

  /** Below 15 candles there is no ATR, and below 20 the filter keeps the trend. */
  lemma VolatilityNeedsTwentyCandles(cfg: Config, trend: Trend, candles5m: seq<Candle>, price: real, confidence: Confidence)
    requires |candles5m| < VolatilityMinCandles
    ensures VolatilityAdjustedTrend(cfg, trend, candles5m, price, confidence) == trend
  {
  }

  /** Volatility filter step: a trend the adjustment changes becomes sideways
      with low confidence. */
  function ApplyVolatility(cfg: Config, v: Verdict, candles5m: seq<Candle>, price: real): (w: Verdict)
    ensures KeptOrVetoed(v, w) && (Coherent(v) ==> Coherent(w))
    ensures w.trend != v.trend <==> cfg.volatilityFilter && v.trend.IsDirectional()
                                    && VolatilityAdjustedTrend(cfg, v.trend, candles5m, price, v.confidence) == Sideways
    ensures w.trend != v.trend ==> w.reason == VolatilityTooHigh && w.bypassed == v.bypassed
    ensures w.trend == v.trend ==> w == v
  {
    if cfg.volatilityFilter && v.trend.IsDirectional() then
      var adjusted := VolatilityAdjustedTrend(cfg, v.trend, candles5m, price, v.confidence);
      if adjusted != v.trend then v.(trend := adjusted, confidence := Low, reason := VolatilityTooHigh)
      else v
    else v
  }

  // ------------------------------------------------------------ 4h confirmation

  /** `get_4h_trend`: sideways unless the confirmation is enabled and 4h candles were fetched. */
  function Trend4h(cfg: Config, candles4h: seq<Candle>): (t: Trend)
    ensures !cfg.confirm4h || |candles4h| < LongPeriod(H4) ==> t == Sideways
    ensures cfg.confirm4h && |candles4h| > 0 ==> t == CalculateTrend(candles4h, H4)
  {
    if !cfg.confirm4h then Sideways
    else if |candles4h| == 0 then Sideways
    else CalculateTrend(candles4h, H4)
  }

  /** 4h confirmation step: a contradicting 4h direction vetoes; an agreeing one
      raises medium confidence to high and notes the confirmation. */
  function ApplyConfirmation(cfg: Config, v: Verdict, trend4h: Trend): (w: Verdict)
    ensures KeptOrVetoed(v, w) && (Coherent(v) ==> Coherent(w))
    ensures w.trend != v.trend <==> cfg.confirm4h && v.trend.IsDirectional()
                                    && trend4h.IsDirectional() && trend4h != v.trend
    ensures w.trend != v.trend ==> w.reason == Contradicted4h(trend4h)
    ensures w.bypassed == v.bypassed
    ensures !(cfg.confirm4h && v.trend.IsDirectional() && trend4h.IsDirectional()) ==> w == v
    ensures cfg.confirm4h && v.trend.IsDirectional() && trend4h == v.trend
            ==> w.confidence == (if v.confidence == Medium then High else v.confidence)
                && w.reason == ConfirmedBy4h(v.reason)
  {
    if cfg.confirm4h && v.trend.IsDirectional() then
      if trend4h != Sideways && trend4h != v.trend then
        v.(trend := Sideways, confidence := Low, reason := Contradicted4h(trend4h))
      else if trend4h == v.trend then
        v.(confidence := if v.confidence == Medium then High else v.confidence, reason := ConfirmedBy4h(v.reason))
      else v
    else v
  }

  // ------------------------------------------------------------ support / resistance

  const NearLevelThreshold: real := 0.01
  const OversoldRsi: real := 30.0
  const OverboughtRsi: real := 70.0

  /** Relative distance of the price from a daily level (`price_to_low_ratio`, `price_to_high_ratio`). */
  function LevelDistance(price: real, level: PositivePrice): (r: real)
    ensures r >= 0.0
  {
    Abs(level - price) / level
  }

  /** Support/resistance step: no selling within 1% of the daily low with RSI
      below 30, no buying within 1% of the daily high with RSI above 70. */
  function ApplySupportResistance(cfg: Config, v: Verdict, price: real, high: Option<PositivePrice>,
                                  low: Option<PositivePrice>, rsi: real): (w: Verdict)
    ensures KeptOrVetoed(v, w) && (Coherent(v) ==> Coherent(w))
    ensures w.trend != v.trend <==>
      cfg.supportResistanceFilter && high.Some? && low.Some? &&
      ((v.trend == Downtrend && LevelDistance(price, low.value) <= NearLevelThreshold && rsi < OversoldRsi) ||
       (v.trend == Uptrend && LevelDistance(price, high.value) <= NearLevelThreshold && rsi > OverboughtRsi))
    ensures w.trend != v.trend ==> w.reason == (if v.trend == Downtrend then NearSupport(low.value, rsi)
                                                else NearResistance(high.value, rsi))
    ensures w.bypassed == v.bypassed
    ensures w.trend == v.trend ==> w == v
  {
    if cfg.supportResistanceFilter && high.Some? && low.Some? then
      var afterLow :=
        if LevelDistance(price, low.value) <= NearLevelThreshold && rsi < OversoldRsi && v.trend == Downtrend then
          v.(trend := Sideways, confidence := Low, reason := NearSupport(low.value, rsi))
        else v;
      if LevelDistance(price, high.value) <= NearLevelThreshold && rsi > OverboughtRsi && afterLow.trend == Uptrend then
        afterLow.(trend := Sideways, confidence := Low, reason := NearResistance(high.value, rsi))
      else afterLow
    else v
  }

  // ------------------------------------------------------------ the whole analysis

  /** `rsi_interpretation`: oversold below 30, overbought above 70, neutral in between. */
  function RsiLabelOf(rsi: real): (l: RsiLabel)
    ensures l == Oversold <==> rsi < OversoldRsi
    ensures l == Overbought <==> rsi > OverboughtRsi
    ensures l == Neutral <==> OversoldRsi <= rsi <= OverboughtRsi
  {
    if rsi < OversoldRsi then Oversold else if rsi > OverboughtRsi then Overbought else Neutral
  }

  /** The three timeframe votes of a cycle. */
  function VotesOf(m: MarketData): Votes
  {
    Votes(CalculateTrend(m.candles5m, M5), CalculateTrend(m.candles15m, M15), CalculateTrend(m.candles1h, H1))
  }

  /** The verdict after all four filters, in the script's order. */
  function FilteredVerdict(cfg: Config, m: MarketData, rsi: real): (r: Verdict)
    requires |m.candles5m| > 0
    ensures Coherent(r)
    ensures r.trend.IsDirectional() ==> Count(VotesOf(m), r.trend) == 3
    ensures r.bypassed ==> AlignmentOf(VotesOf(m)).IsUnanimous()
                           && IsConsolidating(cfg, m.candles1h, m.widthRatio1h)
  {
    var price := m.candles5m[|m.candles5m| - 1].close;
    var votes := VotesOf(m);
    var v0 := InitialVerdict(votes, rsi);
    var v1 := ApplyConsolidation(v0, AlignmentOf(votes), IsConsolidating(cfg, m.candles1h, m.widthRatio1h));
    var v2 := ApplyVolatility(cfg, v1, m.candles5m, price);
    var v3 := ApplyConfirmation(cfg, v2, Trend4h(cfg, m.candles4h));
    ApplySupportResistance(cfg, v3, price, m.dailyHigh, m.dailyLow, rsi)
  }

  /** `enhanced_trend_analysis` as a function of the fetched data. `None` is the
      exception the script raises when the 5m series is missing or empty. */
  function Analyze(cfg: Config, m: MarketData): (r: Option<AnalysisResult>)
    ensures r.Some? <==> |m.candles5m| > 0
    ensures r.Some? ==> (r.value.confidence == High <==> r.value.trend.IsDirectional())
                        && r.value.confidence != Medium
    ensures r.Some? && r.value.trend.IsDirectional() ==> Count(r.value.votes, r.value.trend) == 3
    ensures r.Some? && r.value.consolidationBypassed ==> r.value.alignment.IsUnanimous()
  {
    if |m.candles5m| == 0 then None
    else
      var rsi := Rsi(Closes(m.candles5m), RsiPeriod);
      var v := FilteredVerdict(cfg, m, rsi);
      Some(AnalysisResult(v.trend, v.confidence, v.reason, rsi, RsiLabelOf(rsi), AlignmentOf(VotesOf(m)),
                          VotesOf(m), m.candles5m[|m.candles5m| - 1].close, m.dailyHigh, m.dailyLow, v.bypassed))
  }

  /** Step 1 of `enhanced_trend_analysis`: the consolidation filter on the local variables. */
  method ConsolidationStep(cfg: Config, alignment: Alignment, candles1h: seq<Candle>, widthRatio: Option<real>,
                           trend: Trend, confidence: Confidence, reason: Reason, bypassed: bool)
    returns (trend': Trend, confidence': Confidence, reason': Reason, bypassed': bool)
    ensures Verdict(trend', confidence', reason', bypassed')
         == ApplyConsolidation(Verdict(trend, confidence, reason, bypassed), alignment, IsConsolidating(cfg, candles1h, widthRatio))
  {
    trend', confidence', reason', bypassed' := trend, confidence, reason, bypassed;
    if cfg.consolidationFilter && IsConsolidating(cfg, candles1h, widthRatio) {
      if alignment == AllUptrend || alignment == AllDowntrend {
        bypassed' := true;
      } else {
        trend', confidence', reason' := Sideways, Low, MarketConsolidating;
      }
    }
  }

  /** Step 2: the volatility filter. */
  method VolatilityStep(cfg: Config, candles5m: seq<Candle>, price: real,
                        trend: Trend, confidence: Confidence, reason: Reason, bypassed: bool)
    returns (trend': Trend, confidence': Confidence, reason': Reason)
    ensures Verdict(trend', confidence', reason', bypassed)
         == ApplyVolatility(cfg, Verdict(trend, confidence, reason, bypassed), candles5m, price)
  {
    trend', confidence', reason' := trend, confidence, reason;
    if cfg.volatilityFilter && (trend == Uptrend || trend == Downtrend) {
      var adjusted := VolatilityAdjustedTrend(cfg, trend, candles5m, price, confidence);
      if adjusted != trend {
        trend', confidence', reason' := adjusted, Low, VolatilityTooHigh;
      }
    }
  }

  /** Step 3: the 4h confirmation; the 4h series is only looked at when the
      filter is on and the trend is a direction. */
  method ConfirmationStep(cfg: Config, candles4h: seq<Candle>,
                          trend: Trend, confidence: Confidence, reason: Reason, bypassed: bool)
    returns (trend': Trend, confidence': Confidence, reason': Reason)
    ensures Verdict(trend', confidence', reason', bypassed)
         == ApplyConfirmation(cfg, Verdict(trend, confidence, reason, bypassed), Trend4h(cfg, candles4h))
  {
    trend', confidence', reason' := trend, confidence, reason;
    if cfg.confirm4h && (trend == Uptrend || trend == Downtrend) {
      var trend4h := Trend4h(cfg, candles4h);
      if trend4h != Sideways && trend4h != trend {
        trend', confidence', reason' := Sideways, Low, Contradicted4h(trend4h);
      } else if trend4h == trend {
        if confidence == Medium {
          confidence' := High;
        }
        reason' := ConfirmedBy4h(reason);
      }
    }
  }

  /** Step 4: the support/resistance filter; the near-low test runs first and
      the near-high test sees its result. */
  method SupportResistanceStep(cfg: Config, price: real, dailyHigh: Option<PositivePrice>,
                               dailyLow: Option<PositivePrice>, rsi: real,
                               trend: Trend, confidence: Confidence, reason: Reason, bypassed: bool)
    returns (trend': Trend, confidence': Confidence, reason': Reason)
    ensures Verdict(trend', confidence', reason', bypassed)
         == ApplySupportResistance(cfg, Verdict(trend, confidence, reason, bypassed), price, dailyHigh, dailyLow, rsi)
  {
    trend', confidence', reason' := trend, confidence, reason;
    if cfg.supportResistanceFilter && dailyHigh.Some? && dailyLow.Some? {
      var high, low := dailyHigh.value, dailyLow.value;
      var priceToLow := LevelDistance(price, low);
      var priceToHigh := LevelDistance(price, high);
      if priceToLow <= NearLevelThreshold && rsi < OversoldRsi && trend' == Downtrend {
        trend', confidence', reason' := Sideways, Low, NearSupport(low, rsi);
      }
      if priceToHigh <= NearLevelThreshold && rsi > OverboughtRsi && trend' == Uptrend {
        trend', confidence', reason' := Sideways, Low, NearResistance(high, rsi);
      }
    }
  }

  /** `enhanced_trend_analysis`: computes the votes, RSI and alignment, then
      reassigns trend, confidence, reason and the bypass flag filter by filter. */
  method EnhancedTrendAnalysis(cfg: Config, m: MarketData) returns (r: Option<AnalysisResult>)
    ensures r == Analyze(cfg, m)
  {
    if |m.candles5m| == 0 {
      return None;
    }
    var candles5m := m.candles5m;
    var votes := VotesOf(m);
    var rsi := CalculateRsi(Closes(candles5m), RsiPeriod);
    var price := candles5m[|candles5m| - 1].close;
    var alignment := AlignmentOf(votes);

    var initial := InitialVerdict(votes, rsi);
    var trend, confidence, reason, bypassed := initial.trend, initial.confidence, initial.reason, false;
    trend, confidence, reason, bypassed :=
      ConsolidationStep(cfg, alignment, m.candles1h, m.widthRatio1h, trend, confidence, reason, bypassed);
    trend, confidence, reason := VolatilityStep(cfg, candles5m, price, trend, confidence, reason, bypassed);
    trend, confidence, reason := ConfirmationStep(cfg, m.candles4h, trend, confidence, reason, bypassed);
    trend, confidence, reason :=
      SupportResistanceStep(cfg, price, m.dailyHigh, m.dailyLow, rsi, trend, confidence, reason, bypassed);

    var interpretation := if rsi < OversoldRsi then Oversold else if rsi > OverboughtRsi then Overbought else Neutral;
    r := Some(AnalysisResult(trend, confidence, reason, rsi, interpretation, alignment, votes, price,
                             m.dailyHigh, m.dailyLow, bypassed));
  }
}
