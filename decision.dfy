/** The trade decision and one cycle of the polling loop: extend the ladder
    when positions are open, otherwise run the analysis and maybe open a
    fresh entry. */
module Decision {
  import opened Types
  import opened Indicators
  import opened Aggregator
  import opened Analysis
  import opened Ladder

  /** `{ trade_type:, multiplier: }`. */
  datatype TradeDecision = TradeDecision(side: Side, multiplier: real)

  /** An order `place_trade` sends: a take-profit in relative pips for a fresh
      entry, an absolute price for a rung. */
  datatype Order = Order(side: Side, volume: real, takeProfit: real, relativePips: bool)

  /** What one cycle does. `AddRung` places the order and then runs
      `update_trades` over the re-fetched positions. */
  datatype CycleAction =
    | SkipCycle          // the position fetch failed
    | HoldLadder         // positions are open and the market has not moved far enough
    | AddRung(order: Order)
    | OpenEntry(order: Order)
    | NoEntry            // no positions and no high-confidence direction
    | CycleFailed        // the analysis raised (no 5m candles) and the cycle was rescued

  const DefaultInitialLot: real := 0.1
  const BypassedTakeProfitPips: real := 100.0
  const EntryTakeProfitPips: real := 1000.0

  /** `lot_multiplier`: fixed at 1, whatever the analysis says. */
  function LotMultiplier(a: AnalysisResult): (m: real)
    ensures m == 1.0
  {
    1.0
  }

  /** `enhanced_trading_decision`: a buy for a high-confidence uptrend, a sell
      for a high-confidence downtrend, nothing otherwise. */
  function EnhancedTradingDecision(a: AnalysisResult): (d: Option<TradeDecision>)
    ensures d.Some? <==> a.confidence == High && a.trend.IsDirectional()
    ensures d.Some? ==> (d.value.side == Buy <==> a.trend == Uptrend) && d.value.multiplier == 1.0
  {
    match a.trend
    case Uptrend => if a.confidence == High then Some(TradeDecision(Buy, LotMultiplier(a))) else None
    case Downtrend => if a.confidence == High then Some(TradeDecision(Sell, LotMultiplier(a))) else None
    case Sideways => None
  }

  /** `initial_lot_size`: the configured lot, 0.1 when none is set. */
  function InitialLotSize(configured: Option<real>): (lot: real)
    ensures configured.None? ==> lot == 0.1
    ensures configured.Some? ==> lot == configured.value
  {
    configured.GetOr(DefaultInitialLot)
  }

  /** The branch logic of one loop iteration, given what the fetches returned. */
  function CycleDecision(cfg: Config, positions: Option<seq<Position>>, m: MarketData, lotSetting: Option<real>): (a: CycleAction)
    ensures a == SkipCycle <==> positions.None?
    ensures a.AddRung? || a == HoldLadder <==> positions.Some? && |positions.value| > 0
    ensures a.AddRung? <==> positions.Some? && |positions.value| > 0 && ShouldPlaceTrade(positions.value)
    ensures a == CycleFailed <==> positions == Some([]) && |m.candles5m| == 0
    ensures a.OpenEntry? <==> positions == Some([]) && |m.candles5m| > 0 && Analyze(cfg, m).value.confidence == High
  {
    match positions
    case None => SkipCycle
    case Some(ps) =>
      if |ps| > 0 then
        if ShouldPlaceTrade(ps) then
          var side := LatestPosition(ps).side;
          AddRung(Order(side, NextLotSize(ps), NextTakeProfit(ps, NextPotentialPosition(ps)), false))
        else HoldLadder
      else
        match Analyze(cfg, m)
        case None => CycleFailed
        case Some(analysis) =>
          match EnhancedTradingDecision(analysis)
          case None => NoEntry
          case Some(d) =>
            var takeProfit := if analysis.consolidationBypassed then BypassedTakeProfitPips else EntryTakeProfitPips;
            OpenEntry(Order(d.side, InitialLotSize(lotSetting) * d.multiplier, takeProfit, true))
  }

  /** A rung continues the ladder: same side as the latest position, the first
      volume times `n + 1`, and an absolute take-profit at the mean of the open
      prices and the threshold price. */
  lemma RungOrder(cfg: Config, ps: seq<Position>, m: MarketData, lotSetting: Option<real>)
    requires |ps| > 0 && ShouldPlaceTrade(ps)
    ensures var a := CycleDecision(cfg, Some(ps), m, lotSetting);
      && a.AddRung?
      && a.order.side == LatestPosition(ps).side
      && a.order.volume == FirstPosition(ps).volume * (|ps| + 1) as real
      && a.order.takeProfit == NextTakeProfit(ps, NextPotentialPosition(ps))
      && !a.order.relativePips
  {
  }

  /** A fresh entry follows the analysis: it buys only after three up votes and
      sells only after three down votes, with the configured lot and a relative
      take-profit of 100 pips when consolidation was bypassed, 1000 otherwise. */
  lemma EntryOrder(cfg: Config, m: MarketData, lotSetting: Option<real>)
    requires CycleDecision(cfg, Some([]), m, lotSetting).OpenEntry?
    ensures var o := CycleDecision(cfg, Some([]), m, lotSetting).order;
      && o.relativePips
      && o.volume == InitialLotSize(lotSetting)
      && (o.side == Buy ==> Count(VotesOf(m), Uptrend) == 3)
      && (o.side == Sell ==> Count(VotesOf(m), Downtrend) == 3)
      && (o.takeProfit == BypassedTakeProfitPips <==> Analyze(cfg, m).value.consolidationBypassed)
      && (o.takeProfit == BypassedTakeProfitPips || o.takeProfit == EntryTakeProfitPips)
  {
    var a := Analyze(cfg, m).value;
    assert a.votes == VotesOf(m);
  }

  /** The tight take-profit is used only when the market was consolidating and
      all three votes agreed. */
  lemma TightTakeProfitNeedsUnanimity(cfg: Config, m: MarketData, lotSetting: Option<real>)
    requires CycleDecision(cfg, Some([]), m, lotSetting).OpenEntry?
    requires CycleDecision(cfg, Some([]), m, lotSetting).order.takeProfit == BypassedTakeProfitPips
    ensures AlignmentOf(VotesOf(m)).IsUnanimous()
    ensures IsConsolidating(cfg, m.candles1h, m.widthRatio1h)
  {
    var rsi := Rsi(Closes(m.candles5m), RsiPeriod);
    assert FilteredVerdict(cfg, m, rsi).bypassed;
  }
}
