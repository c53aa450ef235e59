/** The values the decision engine reads and produces. Every Ruby hash and tag
    string of the script becomes a datatype with a closed set of cases. */
module Types {

  datatype Option<T> = None | Some(value: T) {
    function GetOr(default: T): T
    {
      match this
      case Some(v) => v
      case None => default
    }
  }

  /** A price that the script divides by (daily high and daily low). */
  type PositivePrice = x: real | x > 0.0 witness 1.0

  /** One bar of market data, oldest first in every series; only the fields
      the engine reads. */
  datatype Candle = Candle(high: real, low: real, close: real)

  /** The timeframe tags `calculate_trend` distinguishes; anything else is `Other`. */
  datatype Timeframe = M5 | M15 | H1 | H4 | Other

  /** 'uptrend', 'downtrend', 'sideways'. */
  datatype Trend = Uptrend | Downtrend | Sideways {
    predicate IsDirectional() { this != Sideways }
  }

  /** 'low', 'medium', 'high'; the script tests for 'medium' but never sets it. */
  datatype Confidence = Low | Medium | High

  /** 'all_uptrend', 'all_downtrend', 'majority_uptrend', 'majority_downtrend', 'conflicting'. */
  datatype Alignment = AllUptrend | AllDowntrend | MajorityUptrend | MajorityDowntrend | Conflicting {
    predicate IsUnanimous() { this == AllUptrend || this == AllDowntrend }
  }

  /** 'oversold', 'neutral', 'overbought'. */
  datatype RsiLabel = Oversold | Neutral | Overbought

  /** FILTER_AGGRESSIVENESS: "LOW", "MEDIUM", "HIGH", or any other string. */
  datatype Tier = TierLow | TierMedium | TierHigh | TierOther

  /** POSITION_TYPE_BUY / POSITION_TYPE_SELL, and ORDER_TYPE_BUY / ORDER_TYPE_SELL. */
  datatype Side = Buy | Sell

  /** The tagged `confidence_reason` strings; numbers interpolated into a
      string are kept as fields. */
  datatype Reason =
    | NoReason
    | AllAgreeUp
    | AllAgreeDown
    | AllSideways
    | MajorityUpOverbought(rsi: real)
    | MajorityDownOversold(rsi: real)
    | ConflictingSignals
    | MarketConsolidating
    | VolatilityTooHigh
    | Contradicted4h(trend4h: Trend)
    | ConfirmedBy4h(previous: Reason)
    | NearSupport(dailyLow: real, rsi: real)
    | NearResistance(dailyHigh: real, rsi: real)

  /** The part of the analysis that the filters rewrite: trend, confidence,
      reason, and whether the consolidation filter was bypassed. */
  datatype Verdict = Verdict(trend: Trend, confidence: Confidence, reason: Reason, bypassed: bool)

  /** The engine's switches and aggressiveness tier (ENABLE_* and FILTER_AGGRESSIVENESS). */
  datatype Config = Config(
    consolidationFilter: bool,
    volatilityFilter: bool,
    confirm4h: bool,
    supportResistanceFilter: bool,
    tier: Tier)

  /** The settings the script ships with. */
  const ShippedConfig: Config := Config(true, true, false, true, TierLow)
}
