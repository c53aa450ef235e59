# Decision engine of the ETH martingale trading bot, in Dafny

The bot (`ea.rb`) runs in a loop every five minutes. In each cycle it does one of two things:

- When positions are open, it may extend a martingale ladder.
- When no position is open, it analyses 5m, 15m and 1h price history and may open a fresh position.

This project models the decision logic of that cycle and proves properties of it.

- `numeric.dfy` (`Numeric`): sums, means and the inequalities the proofs use.
- `types.dfy` (`Types`): the candles, trend/confidence/alignment tags, reasons, verdicts and the configuration.
- `indicators.dfy` (`Indicators`):
  - `calculate_rsi` (Wilder smoothing) and `calculate_atr`, each written twice: as functions, and as methods with the source's loops proved equal to those functions;
  - simple moving averages.
- `trend.dfy` (`TrendClassifier`): `calculate_trend`, a crossover of two moving averages with fixed periods per timeframe.
- `aggregator.dfy` (`Aggregator`): counts the three timeframe votes into an alignment class and sets the initial trend, confidence and reason.
- `analysis.dfy` (`Analysis`): the four filters (consolidation, volatility, 4h confirmation, support/resistance).
  - Each filter is a pure function from one verdict to the next.
  - `Analyze` composes them.
  - `EnhancedTrendAnalysis` reassigns the trend, confidence, reason and bypass flag filter by filter, as the script does, and is proved equal to `Analyze`.
- `guarantees.dfy` (`Guarantees`): end-to-end consequences for the analysis.
- `ladder.dfy` (`Ladder`): the rung trigger, rung lot, provisional and shared take-profit, and `update_trades` as a loop that issues one modification per position.
- `decision.dfy` (`Decision`): `enhanced_trading_decision`, and the branch logic of one loop iteration as a function returning the action taken.

The RSI as the script computes it differs from textbook RSI. Each loss is recorded as `[change.abs, 0].max`, which is the size of the change whether the price rose or fell. So every gain is at most the matching loss, and the result always lies in [0, 50] rather than [0, 100]. Closes that never fall give exactly 50, not 100. The model follows the code. `Guarantees` proves the consequences:

- the `rsi < 75` guard of a unanimous uptrend always passes;
- the "majority uptrend but overbought" reason never appears;
- the near-resistance veto (RSI above 70) never fires;
- the `overbought` label is never produced;
- a steady fall (RSI 0, at most 25) turns three down votes into a sideways verdict.

The script runs the strict aggregator. Confidence is only ever high or low, and the lot multiplier is fixed at 1. There is no graduated confidence, no RSI bonus and no emergency RSI override in this code, so none is modelled.

## Model

| member | source | states |
|---|---|---|
| `Indicators.GainAtMostLoss` | ea.rb:72-76 | each loss is the absolute price change, and each gain lies between 0 and the loss of the same step |
| `Indicators.CollectChanges` | ea.rb:68-76 | the loop that appends gains and losses produces exactly the per-change gain and loss sequences |
| `Indicators.SmoothAverages` | ea.rb:79-86 | the Wilder loop leaves the averages equal to Wilder's smoothing of the first-`period` means over the remaining gains and losses |
| `Indicators.SmoothedSnoc` | ea.rb:83-86 | one more loop iteration is one more Wilder step on the running average |
| `Indicators.CalculateRsi` | ea.rb:65-95 | the method returns `Rsi(prices, period)`, and that value lies in [0, 50] |
| `Indicators.WilderStepMono` | ea.rb:84-85 | a Wilder step is monotone in the running average and in the new value |
| `Indicators.SmoothedMono` | ea.rb:83-86 | smoothing pointwise smaller values from a smaller start gives a smaller average |
| `Indicators.SmoothedNonNegative` | ea.rb:83-86 | smoothing non-negative values from a non-negative start stays non-negative |
| `Indicators.SmoothedPositive` | ea.rb:83-86 | smoothing positive values from a positive start stays positive |
| `Indicators.SmoothedZero` | ea.rb:83-86 | smoothing zeros from zero gives zero |
| `Indicators.AveragesOrdered` | ea.rb:72-86 | after smoothing, 0 <= average gain <= average loss |
| `Indicators.RsiOfRange` | ea.rb:89-93 | with 0 <= average gain <= average loss, the formula (or 50 for a zero loss) lies in [0, 50] |
| `Indicators.Rsi` | ea.rb:65-95 | fewer than `period + 1` prices give 50, and the RSI as written lies in [0, 50] for every price series |
| `Indicators.RsiOfNonDecreasing` | ea.rb:65-95 | closes that never fall give exactly 50 |
| `Indicators.RsiOfStrictlyFalling` | ea.rb:65-95 | at least `period + 1` strictly falling closes give 0 |
| `Indicators.AverageGainOfFall` | ea.rb:74-86 | a strictly falling series has average gain 0 |
| `Indicators.AverageLossOfFall` | ea.rb:75-86 | a strictly falling series has a positive average loss |
| `Indicators.Sma` | ea.rb:375-376 | over a window of equal closes, the moving average is that close |
| `Indicators.SmaWithin` | ea.rb:375-376 | a moving average lies within any bounds of the closes it averages |
| `Indicators.TrueRange` | ea.rb:103-111 | a true range is non-negative and at least the bar's own high-low range |
| `Indicators.TrueRanges` | ea.rb:101-112 | one true range per bar after the first |
| `Indicators.Atr` | ea.rb:98-117 | ATR is present iff there are at least `period + 1` candles, and is then non-negative |
| `Indicators.AtrAtLeastMeanRange` | ea.rb:101-115 | ATR is at least the mean high-low range of the same `period` bars |
| `Indicators.CalculateAtr` | ea.rb:98-117 | the loop that appends true ranges computes exactly `Atr(candles, period)` |
| `TrendClassifier.ShortPeriod` | ea.rb:353-370 | each timeframe's short period is at least 1 and below its long period (72/32/50/30/60) |
| `TrendClassifier.CalculateTrend` | ea.rb:349-373 | an empty series, or one shorter than the timeframe's long period, is sideways |
| `TrendClassifier.SmasByWindows` | ea.rb:375-376 | the short average is the mean of the recent window, and the long average is the mean of the older and recent windows together |
| `TrendClassifier.CrossoverArithmetic` | ea.rb:378-384 | the recent mean exceeds (falls below) the whole mean iff it exceeds (falls below) the older mean |
| `TrendClassifier.TrendByWindows` | ea.rb:349-385 | with enough data: uptrend iff the recent window's mean is above the older window's, downtrend iff below, sideways iff equal |
| `TrendClassifier.TrendOfFlatSeries` | ea.rb:349-385 | a series of equal closes is sideways on every timeframe |
| `Aggregator.Count` | ea.rb:440-441 | a vote count is at most 3 |
| `Aggregator.CountsShareThree` | ea.rb:440-442 | up, down and sideways votes add up to 3 |
| `Aggregator.AlignmentOf` | ea.rb:445-455 | all-up iff 3 up votes, all-down iff 3 down, majority-up iff 2 up, majority-down iff 2 down, conflicting iff neither direction has 2 |
| `Aggregator.InitialVerdict` | ea.rb:457-481 | uptrend iff 3 up votes and RSI < 75; downtrend iff 3 down votes and RSI > 25; high confidence iff directional; never medium; not bypassed |
| `Aggregator.InitialReason` | ea.rb:457-481 | all-agree-up iff uptrend, all-agree-down iff downtrend; all-sideways iff 3 sideways votes; majority-up-overbought iff 2+ up votes and RSI >= 75; majority-down-oversold iff 2+ down votes and RSI <= 25; conflicting iff sideways with some direction vote and neither of those two conditions |
| `Analysis.IsConsolidating` | ea.rb:139-158 | consolidating iff the filter is on, there are at least 10 1h candles, a width ratio exists, and it is below the tier threshold (0.015/0.0369/0.054/0.0369) |
| `Analysis.ConsolidationTiersNested` | ea.rb:149-154 | consolidating under LOW implies consolidating under MEDIUM, and MEDIUM implies HIGH |
| `Analysis.WidthRatioBelowThreshold` | ea.rb:120-136 | for a positive mean, the band-width ratio is below a threshold iff 16 times the variance is below threshold squared times mean squared |
| `Analysis.ApplyConsolidation` | ea.rb:489-500 | consolidating with a unanimous alignment only sets the bypass flag; with any other alignment it forces sideways/low; otherwise nothing changes |
| `Analysis.KeepIfClear` | ea.rb:194-210 | an uptrend survives iff price - MA >= required distance, a downtrend iff MA - price >= required distance |
| `Analysis.VolatilityAdjustedTrend` | ea.rb:161-211 | the adjusted trend is the input trend or sideways |
| `Analysis.VolatilityNeedsTwentyCandles` | ea.rb:164-168 | below 20 candles (so also when ATR is missing) the trend is unchanged |
| `Analysis.ApplyVolatility` | ea.rb:503-511 | the trend changes iff the filter is on, the trend is directional and the adjustment is sideways; then the reason is volatility; otherwise nothing changes |
| `Analysis.Trend4h` | ea.rb:214-221 | with the confirmation off, or fewer 4h candles than the 4h long period, the 4h trend is sideways; otherwise it is `calculate_trend` of the 4h series |
| `Analysis.ApplyConfirmation` | ea.rb:514-527 | the trend changes iff the confirmation is on and a directional 4h trend contradicts a directional verdict, and then the reason names the 4h trend; an agreeing 4h trend raises medium to high and wraps the reason; in every other case the verdict is unchanged; the bypass flag is always kept |
| `Analysis.LevelDistance` | ea.rb:534-535 | the relative distance from a daily level is non-negative |
| `Analysis.ApplySupportResistance` | ea.rb:530-552 | the trend changes iff a downtrend is within 1% of the daily low with RSI < 30, or an uptrend within 1% of the daily high with RSI > 70; the veto reason names the daily low (for a downtrend) or high and the RSI; the bypass flag is kept; otherwise nothing changes |
| `Analysis.RsiLabelOf` | ea.rb:564 | oversold iff RSI < 30, overbought iff RSI > 70, neutral iff 30 <= RSI <= 70 |
| `Analysis.FilteredVerdict` | ea.rb:457-552 | after all filters, confidence is high iff the trend is directional; a directional trend has all three votes; a bypass needs consolidation and a unanimous alignment |
| `Analysis.Analyze` | ea.rb:420-575 | a result exists iff there are 5m candles; its confidence is high iff directional and never medium; a directional result had 3 matching votes; a bypass had a unanimous alignment |
| `Analysis.ConsolidationStep` | ea.rb:489-500 | reassigning the locals in the consolidation block yields `ApplyConsolidation` of the verdict |
| `Analysis.VolatilityStep` | ea.rb:503-511 | reassigning the locals in the volatility block yields `ApplyVolatility` of the verdict |
| `Analysis.ConfirmationStep` | ea.rb:514-527 | reassigning the locals in the 4h block yields `ApplyConfirmation` of the verdict |
| `Analysis.SupportResistanceStep` | ea.rb:530-552 | reassigning the locals in the support/resistance block yields `ApplySupportResistance` of the verdict |
| `Analysis.EnhancedTrendAnalysis` | ea.rb:420-575 | the step-by-step procedure returns exactly `Analyze(cfg, m)`, so it has every property proved of `Analyze` |
| `Guarantees.UnanimousUpPassesRsiGuard` | ea.rb:462-466 | three up votes always give uptrend/high/all-agree, because RSI never reaches 75 |
| `Guarantees.NeverMajorityUpOverbought` | ea.rb:474-475 | the majority-up-but-overbought reason is never produced |
| `Guarantees.SteadyFallBlocksDowntrend` | ea.rb:467-477 | a steady fall has RSI 0, so three down votes give sideways with the oversold reason |
| `Guarantees.ResistanceVetoNeverFires` | ea.rb:546-551 | the support/resistance step never touches an uptrend, whatever the prices |
| `Guarantees.NeverOverbought` | ea.rb:560-564 | the reported RSI lies in [0, 50] and is never labelled overbought |
| `Guarantees.UnanimousUpSurvives` | ea.rb:457-552 | with the volatility and 4h filters off, three up votes always end in uptrend/high |
| `Guarantees.ShippedConfirmationIsIdentity` | ea.rb:214-221 | with the shipped settings (4h confirmation off) the 4h trend is sideways and the confirmation step leaves every verdict unchanged |
| `Decision.LotMultiplier` | ea.rb:579-586 | the multiplier is always 1 |
| `Decision.EnhancedTradingDecision` | ea.rb:589-616 | a decision exists iff confidence is high and the trend directional; it buys iff uptrend; multiplier 1 |
| `Decision.InitialLotSize` | ea.rb:252-254 | the configured lot when one is set, 0.1 otherwise |
| `Decision.CycleDecision` | ea.rb:620-658 | skip iff the position fetch failed; the ladder branch iff positions are open; a rung iff `should_place_trade?`; failure iff no 5m candles; an entry iff the analysis has high confidence |
| `Decision.RungOrder` | ea.rb:630-637 | a rung has the latest position's side, first volume times n+1, an absolute take-profit at `next_take_profit` of the threshold price |
| `Decision.EntryOrder` | ea.rb:649-655 | an entry uses the initial lot, relative pips, 100 pips iff consolidation was bypassed else 1000, and buys (sells) only after three up (down) votes |
| `Decision.TightTakeProfitNeedsUnanimity` | ea.rb:654 | the 100-pip take-profit is used only when consolidating with a unanimous alignment |
| `Ladder.FirstPosition` | ea.rb:339-341 | the first position is the oldest element of the list |
| `Ladder.LatestPosition` | ea.rb:335-337 | the latest position is the newest element of the list |
| `Ladder.AddRungPositions` | ea.rb:327-341 | adding a rung keeps the first position, makes the rung the latest, and puts the next threshold 10(n+2) from the rung's open price |
| `Ladder.NextPotentialPosition` | ea.rb:327-333 | the threshold is 10(n+1) from the latest open price, below it iff the ladder is a buy |
| `Ladder.ShouldPlaceTrade` | ea.rb:311-325 | a rung is due iff the latest current price has moved against the latest position by strictly more than 10(n+1) |
| `Ladder.NextLotSize` | ea.rb:314 | on a 1x, 2x, 3x, ... ladder the next lot is the latest lot plus the first lot; with a non-negative first lot it is at least the first lot |
| `Ladder.NextTakeProfit` | ea.rb:343-346 | the provisional take-profit is the mean of the open prices together with the new price |
| `Ladder.TakeProfitBuffer` | ea.rb:305-308 | the buffer is the configured value (2 by default), positive for a buy and negated otherwise |
| `Ladder.SharedTakeProfit` | ea.rb:297-298 | when every position opened at the same price, the shared take-profit is that price plus the first position's buffer |
| `Ladder.UpdateTrades` | ea.rb:295-303 | one modification per position, in order, each with the same take-profit: mean open price plus the first position's buffer |
| `Ladder.NextTakeProfitWithin` | ea.rb:343-346 | the provisional take-profit lies between the lowest and highest of the open prices and the new price |
| `Ladder.SharedTakeProfitWithin` | ea.rb:297-298 | the shared take-profit lies within the open prices' range shifted by the buffer |
| `Ladder.RungAtThresholdMatchesProvisional` | ea.rb:634-637 | if the rung fills at its threshold, `update_trades` sets the provisional take-profit plus the buffer |
| `Ladder.NextLotKeepsLinear` | ea.rb:314 | adding a rung of first volume times n+1 keeps a 1x, 2x, 3x, ... ladder linear |
| `Ladder.LinearTotalVolume` | ea.rb:634 | a linear ladder of n rungs holds the first volume times n(n+1)/2 |

## Left out

- HTTP and JSON are not modelled. `get_candles`, `get_positions`, `place_trade`, `update_trade`, the REST client and dotenv are I/O. Their results are inputs (`MarketData`, an optional position list), and their calls are outputs (`CycleAction`, `Modification`).
- A failed or nil candle fetch is modelled as an empty series.
- Logging (`log`, `log_enhanced_analysis` and the log calls inside the filters) is not modelled. It has side effects only.
- The polling loop, `sleep(300)` and the outer rescue are not modelled. They are process supervision. One iteration is `Decision.CycleDecision`. The only rescued failure modelled is a missing 5m series (`CycleFailed`).
- `get_daily_high_low` is not modelled, because it reads the clock and parses time strings. Daily high and low are optional inputs and must be positive, since the script divides by them.
- The square root in `bollinger_band_width_ratio` has no real counterpart in Dafny. The width ratio of the last ten 1h closes is an input. `Analysis.WidthRatioBelowThreshold` characterises the comparison without the root.
- Floats are modelled as mathematical reals. The rounding of RSI to 2 decimals and of ATR to 4 decimals is not modelled, nor is IEEE behaviour such as dividing by a zero mean.
- The 4h fetch of `get_4h_trend` is not modelled. Its candles are an input, looked at only when the confirmation is on.
- Placing a rung and then calling `update_trades` re-fetches positions from the broker, and that sequencing is not modelled. `Ladder.UpdateTrades` works over a given non-empty list. `Ladder.RungAtThresholdMatchesProvisional` relates it to the rung when the rung fills at its threshold.
- Position and order types are `Buy` or `Sell` only. The script treats any type string other than `POSITION_TYPE_BUY` like a sell when it computes the threshold and the buffer, but `should_place_trade?` never adds a rung for it.
- RSI with period 0 (division by zero in the script) is excluded. The script always uses 14.
- Prices are taken to arrive as JSON floats, so every division is real division. When the broker sends integral prices, Ruby's `Integer#/` floors: in `update_trades` (ea.rb:297-298), in `next_take_profit` (ea.rb:344-345) and in the distance ratios against an integral daily level (ea.rb:534-535). That floor division is not modelled.
- Environment settings (`INITIAL_LOT_SIZE`, `TAKE_PROFIT_BUFFER`) are modelled as already-parsed optional reals. Ruby's string-to-float conversion is not modelled.
- `TrendClassifier.CalculateTrend`: its contract states only the short-series case. The crossover case is stated by `TrendClassifier.TrendByWindows`.
- `Analysis.VolatilityAdjustedTrend`: its contract states only that the result is the input trend or sideways. The exact test is `Analysis.KeepIfClear`, which the function applies to the chosen average and ATR multiple.
