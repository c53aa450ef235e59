/** What the analysis as a whole guarantees, and the knock-on effects of the
    RSI as written never exceeding 50. */
module Guarantees {
  import opened Types
  import opened Indicators
  import opened Aggregator
  import opened Analysis

  /** The `rsi_5m < 75` guard always holds, so three up votes always give a
      high-confidence uptrend before the filters. */
  lemma UnanimousUpPassesRsiGuard(votes: Votes, prices: seq<real>)
    requires Count(votes, Uptrend) == 3
    ensures InitialVerdict(votes, Rsi(prices, RsiPeriod)) == Verdict(Uptrend, High, AllAgreeUp, false)
  {
  }

  /** For the same reason the "majority uptrend but overbought" reason never appears. */
  lemma NeverMajorityUpOverbought(votes: Votes, prices: seq<real>)
    ensures !InitialVerdict(votes, Rsi(prices, RsiPeriod)).reason.MajorityUpOverbought?
  {
  }

  /** A steady fall of at least 15 closes has RSI 0, which is at most 25: three
      down votes then give a sideways verdict, not a downtrend. */
  lemma SteadyFallBlocksDowntrend(votes: Votes, prices: seq<real>)
    requires |prices| >= RsiPeriod + 1
    requires forall i :: 0 <= i < |prices| - 1 ==> prices[i] > prices[i + 1]
    requires Count(votes, Downtrend) == 3
    ensures InitialVerdict(votes, Rsi(prices, RsiPeriod)) == Verdict(Sideways, Low, MajorityDownOversold(0.0), false)
  {
    RsiOfStrictlyFalling(prices, RsiPeriod);
  }

  /** The "near daily high with RSI above 70" veto never fires: with the RSI of
      any price series, the support/resistance step leaves an uptrend untouched. */
  lemma ResistanceVetoNeverFires(cfg: Config, v: Verdict, price: real, high: Option<PositivePrice>,
                                 low: Option<PositivePrice>, prices: seq<real>)
    requires v.trend == Uptrend
    ensures ApplySupportResistance(cfg, v, price, high, low, Rsi(prices, RsiPeriod)) == v
  {
  }

  /** The returned RSI lies in [0, 50], so the `'overbought'` label is never produced. */
  lemma NeverOverbought(cfg: Config, m: MarketData)
    requires |m.candles5m| > 0
    ensures 0.0 <= Analyze(cfg, m).value.rsi <= 50.0
    ensures Analyze(cfg, m).value.rsiLabel != Overbought
  {
  }

  /** With the volatility filter and the 4h confirmation off, three up votes
      always end in a high-confidence uptrend: consolidation is bypassed for a
      unanimous alignment, and neither the RSI guard nor the resistance veto
      can fire. */
  lemma UnanimousUpSurvives(cfg: Config, m: MarketData)
    requires |m.candles5m| > 0 && Count(VotesOf(m), Uptrend) == 3
    requires !cfg.volatilityFilter && !cfg.confirm4h
    ensures Analyze(cfg, m).value.trend == Uptrend
    ensures Analyze(cfg, m).value.confidence == High
  {
    var rsi := Rsi(Closes(m.candles5m), RsiPeriod);
    UnanimousUpPassesRsiGuard(VotesOf(m), Closes(m.candles5m));
    var v0 := InitialVerdict(VotesOf(m), rsi);
    var v1 := ApplyConsolidation(v0, AlignmentOf(VotesOf(m)), IsConsolidating(cfg, m.candles1h, m.widthRatio1h));
    assert v1.trend == Uptrend;
    var price := m.candles5m[|m.candles5m| - 1].close;
    ResistanceVetoNeverFires(cfg, v1, price, m.dailyHigh, m.dailyLow, Closes(m.candles5m));
  }

  /** With the shipped settings the 4h series is never consulted: its trend is
      sideways and the confirmation step leaves every verdict as it was. */
  lemma ShippedConfirmationIsIdentity(v: Verdict, candles4h: seq<Candle>)
    ensures Trend4h(ShippedConfig, candles4h) == Sideways
    ensures ApplyConfirmation(ShippedConfig, v, Trend4h(ShippedConfig, candles4h)) == v
  {
  }
}
