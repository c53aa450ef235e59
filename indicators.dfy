/** The indicator library: `calculate_rsi`, `calculate_atr` and the simple moving
    averages used by the trend classifier and the volatility filter. */
module Indicators {
  import opened Numeric
  import opened Types

  const RsiPeriod: nat := 14
  const AtrPeriod: nat := 14

  /** The closes of a candle series (`candles.map { |c| c['close'] }`). */
  function Closes(candles: seq<Candle>): (r: seq<real>)
    ensures |r| == |candles| && forall i :: 0 <= i < |r| ==> r[i] == candles[i].close
  {
    seq(|candles|, i requires 0 <= i < |candles| => candles[i].close)
  }

  /** Mean of the last `n` closes (`closes.last(n).sum / n`); over a window of
      equal closes it is that close. */
  function Sma(closes: seq<real>, n: nat): (m: real)
    requires 1 <= n <= |closes|
    ensures (forall i :: |closes| - n <= i < |closes| ==> closes[i] == closes[|closes| - 1])
            ==> m == closes[|closes| - 1]
  {
    var c := closes[|closes| - 1];
    if forall i :: |closes| - n <= i < |closes| ==> closes[i] == c then
      MeanBounds(Last(closes, n), c, c);
      Sum(Last(closes, n)) / n as real
    else
      Sum(Last(closes, n)) / n as real
  }

  /** A moving average lies between any bounds of the closes it averages. */
  lemma SmaWithin(closes: seq<real>, n: nat, lo: real, hi: real)
    requires 1 <= n <= |closes|
    requires forall i :: |closes| - n <= i < |closes| ==> lo <= closes[i] <= hi
    ensures lo <= Sma(closes, n) <= hi
  {
    MeanBounds(Last(closes, n), lo, hi);
  }

  // ---------------------------------------------------------------- RSI

  /** One gain per price change: the rise, or 0. */
  function Gains(prices: seq<real>): (g: seq<real>)
    requires |prices| > 0
    ensures |g| == |prices| - 1
  {
    seq(|prices| - 1, i requires 0 <= i < |prices| - 1 => Max(prices[i + 1] - prices[i], 0.0))
  }

  /** One loss per price change as the script writes it: `[change.abs, 0].max`,
      the size of the change whatever its direction. */
  function Losses(prices: seq<real>): (l: seq<real>)
    requires |prices| > 0
    ensures |l| == |prices| - 1
  {
    seq(|prices| - 1, i requires 0 <= i < |prices| - 1 => Max(Abs(prices[i + 1] - prices[i]), 0.0))
  }

  /** Every loss is the absolute change, so no gain exceeds the loss of the same step. */
  lemma GainAtMostLoss(prices: seq<real>, i: nat)
    requires |prices| > 0 && i < |prices| - 1
    ensures Losses(prices)[i] == Abs(prices[i + 1] - prices[i])
    ensures 0.0 <= Gains(prices)[i] <= Losses(prices)[i]
  {
  }

  /** One step of Wilder's smoothing. */
  function WilderStep(avg: real, x: real, period: nat): real
    requires period >= 1
  {
    (avg * (period - 1) as real + x) / period as real
  }

  /** Wilder's smoothing of `init` over the values `xs`, oldest first. */
  function Smoothed(init: real, xs: seq<real>, period: nat): real
    requires period >= 1
    decreases |xs|
  {
    if |xs| == 0 then init
    else WilderStep(Smoothed(init, xs[..|xs| - 1], period), xs[|xs| - 1], period)
  }

  lemma SmoothedSnoc(init: real, xs: seq<real>, x: real, period: nat)
    requires period >= 1
    ensures Smoothed(init, xs + [x], period) == WilderStep(Smoothed(init, xs, period), x, period)
  {
    assert (xs + [x])[..|xs|] == xs;
  }

  /** `avg_gain` after the Wilder loop. */
  function AverageGain(prices: seq<real>, period: nat): real
    requires period >= 1 && |prices| >= period + 1
  {
    var g := Gains(prices);
    Smoothed(Sum(g[..period]) / period as real, g[period..], period)
  }

  /** `avg_loss` after the Wilder loop. */
  function AverageLoss(prices: seq<real>, period: nat): real
    requires period >= 1 && |prices| >= period + 1
  {
    var l := Losses(prices);
    Smoothed(Sum(l[..period]) / period as real, l[period..], period)
  }

  /** `100 - 100 / (1 + rs)`, or 50 when the average loss is 0. */
  function RsiOf(avgGain: real, avgLoss: real): real
    requires avgGain >= 0.0 && avgLoss >= 0.0
  {
    if avgLoss == 0.0 then 50.0 else 100.0 - 100.0 / (1.0 + avgGain / avgLoss)
  }

  /** `calculate_rsi(prices, period)` without the final rounding to 2 decimals.
      As written it never exceeds 50: each loss is the absolute change, so the
      average gain never exceeds the average loss. */
  function Rsi(prices: seq<real>, period: nat): (r: real)
    requires period >= 1
    ensures |prices| < period + 1 ==> r == 50.0
    ensures 0.0 <= r <= 50.0
  {
    if |prices| < period + 1 then 50.0
    else
      AveragesOrdered(prices, period);
      RsiOfRange(AverageGain(prices, period), AverageLoss(prices, period));
      RsiOf(AverageGain(prices, period), AverageLoss(prices, period))
  }

  /** The first loop of `calculate_rsi`: one gain and one loss per price change. */
  method CollectChanges(prices: seq<real>) returns (gains: seq<real>, losses: seq<real>)
    requires |prices| > 0
    ensures gains == Gains(prices) && losses == Losses(prices)
  {
    gains, losses := [], [];
    var i := 1;
    while i < |prices|
      invariant 1 <= i <= |prices|
      invariant |gains| == |losses| == i - 1
      invariant forall k :: 0 <= k < i - 1 ==> gains[k] == Gains(prices)[k]
      invariant forall k :: 0 <= k < i - 1 ==> losses[k] == Losses(prices)[k]
    {
      var change := prices[i] - prices[i - 1];
      gains := gains + [Max(change, 0.0)];
      losses := losses + [Max(Abs(change), 0.0)];
      i := i + 1;
    }
  }

  /** The second loop of `calculate_rsi`: Wilder's smoothing of both averages
      over the changes after the first `period`. */
  method SmoothAverages(initGain: real, initLoss: real, gains: seq<real>, losses: seq<real>, period: nat)
    returns (avgGain: real, avgLoss: real)
    requires period >= 1 && period <= |gains| == |losses|
    ensures avgGain == Smoothed(initGain, gains[period..], period)
    ensures avgLoss == Smoothed(initLoss, losses[period..], period)
  {
    avgGain, avgLoss := initGain, initLoss;
    var j := period;
    while j < |gains|
      invariant period <= j <= |gains|
      invariant avgGain == Smoothed(initGain, gains[period..j], period)
      invariant avgLoss == Smoothed(initLoss, losses[period..j], period)
    {
      assert gains[period..j + 1] == gains[period..j] + [gains[j]];
      assert losses[period..j + 1] == losses[period..j] + [losses[j]];
      SmoothedSnoc(initGain, gains[period..j], gains[j], period);
      SmoothedSnoc(initLoss, losses[period..j], losses[j], period);
      avgGain := WilderStep(avgGain, gains[j], period);
      avgLoss := WilderStep(avgLoss, losses[j], period);
      j := j + 1;
    }
    assert gains[period..j] == gains[period..];
    assert losses[period..j] == losses[period..];
  }

  /** `calculate_rsi`: neutral 50 below `period + 1` prices or when the average
      loss is 0, otherwise the RSI formula over the smoothed averages. */
  method CalculateRsi(prices: seq<real>, period: nat) returns (rsi: real)
    requires period >= 1
    ensures rsi == Rsi(prices, period)
    ensures 0.0 <= rsi <= 50.0
  {
    if |prices| < period + 1 {
      return 50.0;
    }
    var gains, losses := CollectChanges(prices);
    var avgGain, avgLoss := SmoothAverages(Sum(gains[..period]) / period as real,
                                           Sum(losses[..period]) / period as real,
                                           gains, losses, period);
    AveragesOrdered(prices, period);
    assert avgGain == AverageGain(prices, period) && avgLoss == AverageLoss(prices, period);
    if avgLoss == 0.0 {
      return 50.0;
    }
    var rs := avgGain / avgLoss;
    rsi := 100.0 - 100.0 / (1.0 + rs);
  }

  lemma WilderStepMono(a: real, b: real, x: real, y: real, period: nat)
    requires period >= 1 && a <= b && x <= y
    ensures WilderStep(a, x, period) <= WilderStep(b, y, period)
  {
    var p := period as real;
    assert (b - a) * (p - 1.0) >= 0.0;
    assert a * (p - 1.0) + x <= b * (p - 1.0) + y;
  }

  /** Smoothing is monotone in its start value and in every input. */
  lemma {:induction false} SmoothedMono(a: real, b: real, xs: seq<real>, ys: seq<real>, period: nat)
    requires period >= 1 && a <= b
    requires |xs| == |ys| && forall i :: 0 <= i < |xs| ==> xs[i] <= ys[i]
    ensures Smoothed(a, xs, period) <= Smoothed(b, ys, period)
    decreases |xs|
  {
    if |xs| > 0 {
      var n := |xs| - 1;
      SmoothedMono(a, b, xs[..n], ys[..n], period);
      WilderStepMono(Smoothed(a, xs[..n], period), Smoothed(b, ys[..n], period), xs[n], ys[n], period);
    }
  }

  /** Smoothing non-negative values from a non-negative start stays non-negative. */
  lemma {:induction false} SmoothedNonNegative(init: real, xs: seq<real>, period: nat)
    requires period >= 1 && init >= 0.0
    requires forall i :: 0 <= i < |xs| ==> xs[i] >= 0.0
    ensures Smoothed(init, xs, period) >= 0.0
    decreases |xs|
  {
    if |xs| > 0 {
      var n := |xs| - 1;
      SmoothedNonNegative(init, xs[..n], period);
      var p := period as real;
      assert Smoothed(init, xs[..n], period) * (p - 1.0) >= 0.0;
    }
  }

  /** Smoothing positive values from a positive start stays positive. */
  lemma {:induction false} SmoothedPositive(init: real, xs: seq<real>, period: nat)
    requires period >= 1 && init > 0.0
    requires forall i :: 0 <= i < |xs| ==> xs[i] > 0.0
    ensures Smoothed(init, xs, period) > 0.0
    decreases |xs|
  {
    if |xs| > 0 {
      var n := |xs| - 1;
      SmoothedPositive(init, xs[..n], period);
      var p := period as real;
      assert Smoothed(init, xs[..n], period) * (p - 1.0) >= 0.0;
    }
  }

  /** Smoothing zeros from zero gives zero. */
  lemma {:induction false} SmoothedZero(xs: seq<real>, period: nat)
    requires period >= 1
    requires forall i :: 0 <= i < |xs| ==> xs[i] == 0.0
    ensures Smoothed(0.0, xs, period) == 0.0
    decreases |xs|
  {
    if |xs| > 0 {
      SmoothedZero(xs[..|xs| - 1], period);
    }
  }

  /** The two smoothed averages: the gain is non-negative and never above the loss. */
  lemma AveragesOrdered(prices: seq<real>, period: nat)
    requires period >= 1 && |prices| >= period + 1
    ensures 0.0 <= AverageGain(prices, period) <= AverageLoss(prices, period)
  {
    var g, l := Gains(prices), Losses(prices);
    forall i | 0 <= i < |g|
      ensures 0.0 <= g[i] <= l[i]
    {
      GainAtMostLoss(prices, i);
    }
    SumMono(g[..period], l[..period]);
    SumNonNegative(g[..period]);
    var p := period as real;
    DivMono(Sum(g[..period]), Sum(l[..period]), p);
    SmoothedNonNegative(Sum(g[..period]) / p, g[period..], period);
    SmoothedMono(Sum(g[..period]) / p, Sum(l[..period]) / p, g[period..], l[period..], period);
  }

  /** With `0 <= avgGain <= avgLoss` the formula gives a value in [0, 50]. */
  lemma RsiOfRange(avgGain: real, avgLoss: real)
    requires 0.0 <= avgGain <= avgLoss
    ensures 0.0 <= RsiOf(avgGain, avgLoss) <= 50.0
  {
    if avgLoss != 0.0 {
      var rs := avgGain / avgLoss;
      assert rs * avgLoss == avgGain;
      assert 0.0 <= rs <= 1.0;
      var q := 100.0 / (1.0 + rs);
      assert q * (1.0 + rs) == 100.0;
      assert q > 0.0;
      assert q * (1.0 - rs) >= 0.0;
      assert q * rs >= 0.0;
      assert 50.0 <= q <= 100.0;
    }
  }

  /** Closes that never fall give exactly 50: every gain equals its loss. */
  lemma RsiOfNonDecreasing(prices: seq<real>, period: nat)
    requires period >= 1
    requires forall i :: 0 <= i < |prices| - 1 ==> prices[i] <= prices[i + 1]
    ensures Rsi(prices, period) == 50.0
  {
    if |prices| >= period + 1 {
      forall i | 0 <= i < |prices| - 1
        ensures Gains(prices)[i] == Losses(prices)[i]
      {
        GainAtMostLoss(prices, i);
      }
      assert Gains(prices) == Losses(prices);
      var avg := AverageLoss(prices, period);
      assert AverageGain(prices, period) == avg;
      if avg != 0.0 {
        assert avg / avg == 1.0;
      }
    }
  }

  /** Strictly falling closes, once there are enough of them, give 0. */
  lemma RsiOfStrictlyFalling(prices: seq<real>, period: nat)
    requires period >= 1 && |prices| >= period + 1
    requires forall i :: 0 <= i < |prices| - 1 ==> prices[i] > prices[i + 1]
    ensures Rsi(prices, period) == 0.0
  {
    AverageGainOfFall(prices, period);
    AverageLossOfFall(prices, period);
    assert 0.0 / AverageLoss(prices, period) == 0.0;
  }

  /** A strictly falling series has no gains, so its average gain is 0. */
  lemma AverageGainOfFall(prices: seq<real>, period: nat)
    requires period >= 1 && |prices| >= period + 1
    requires forall i :: 0 <= i < |prices| - 1 ==> prices[i] > prices[i + 1]
    ensures AverageGain(prices, period) == 0.0
  {
    var g := Gains(prices);
    assert forall i :: 0 <= i < |g| ==> g[i] == 0.0;
    SumBounds(g[..period], 0.0, 0.0);
    assert Sum(g[..period]) / period as real == 0.0;
    SmoothedZero(g[period..], period);
  }

  /** A strictly falling series loses on every step, so its average loss is positive. */
  lemma AverageLossOfFall(prices: seq<real>, period: nat)
    requires period >= 1 && |prices| >= period + 1
    requires forall i :: 0 <= i < |prices| - 1 ==> prices[i] > prices[i + 1]
    ensures AverageLoss(prices, period) > 0.0
  {
    var l := Losses(prices);
    assert forall i :: 0 <= i < |l| ==> l[i] > 0.0;
    SumPositive(l[..period]);
    var p := period as real;
    assert Sum(l[..period]) / p > 0.0;
    SmoothedPositive(Sum(l[..period]) / p, l[period..], period);
  }

  // ---------------------------------------------------------------- ATR

  /** The true range of a bar: the largest of its own range and its distances
      from the previous close. */
  function TrueRange(c: Candle, prevClose: real): (tr: real)
    ensures tr >= 0.0 && tr >= c.high - c.low
  {
    Max(Max(c.high - c.low, Abs(c.high - prevClose)), Abs(c.low - prevClose))
  }

  /** One true range per bar after the first. */
  function TrueRanges(candles: seq<Candle>): (r: seq<real>)
    requires |candles| > 0
    ensures |r| == |candles| - 1
  {
    seq(|candles| - 1, i requires 0 <= i < |candles| - 1 => TrueRange(candles[i + 1], candles[i].close))
  }

  /** `calculate_atr(candles, period)` without the final rounding to 4 decimals:
      absent below `period + 1` candles, otherwise the mean of the last `period`
      true ranges, which is never negative. */
  function Atr(candles: seq<Candle>, period: nat): (r: Option<real>)
    requires period >= 1
    ensures r.Some? <==> |candles| >= period + 1
    ensures r.Some? ==> r.value >= 0.0
  {
    if |candles| < period + 1 then None
    else
      var window := Last(TrueRanges(candles), period);
      SumNonNegative(window);
      Some(Sum(window) / period as real)
  }

  /** The range of each bar (high minus low). */
  function BarRanges(candles: seq<Candle>): (r: seq<real>)
    ensures |r| == |candles|
  {
    seq(|candles|, i requires 0 <= i < |candles| => candles[i].high - candles[i].low)
  }

  /** ATR is at least the mean bar range of the same `period` bars. */
  lemma AtrAtLeastMeanRange(candles: seq<Candle>, period: nat)
    requires period >= 1 && |candles| >= period + 1
    ensures Atr(candles, period).value >= Mean(Last(BarRanges(candles), period))
  {
    var tr := Last(TrueRanges(candles), period);
    var br := Last(BarRanges(candles), period);
    forall i | 0 <= i < period
      ensures br[i] <= tr[i]
    {
      var k := |candles| - period + i;
      assert br[i] == BarRanges(candles)[k] == candles[k].high - candles[k].low;
      assert tr[i] == TrueRanges(candles)[k - 1] == TrueRange(candles[k], candles[k - 1].close);
    }
    SumMono(br, tr);
    DivMono(Sum(br), Sum(tr), period as real);
  }

  /** `calculate_atr`: collects the true ranges in a loop, then averages the last `period`. */
  method CalculateAtr(candles: seq<Candle>, period: nat) returns (atr: Option<real>)
    requires period >= 1
    ensures atr == Atr(candles, period)
  {
    if |candles| < period + 1 {
      return None;
    }
    var trueRanges: seq<real> := [];
    var i := 1;
    while i < |candles|
      invariant 1 <= i <= |candles|
      invariant |trueRanges| == i - 1
      invariant forall k :: 0 <= k < i - 1 ==> trueRanges[k] == TrueRanges(candles)[k]
    {
      var high := candles[i].high;
      var low := candles[i].low;
      var prevClose := candles[i - 1].close;
      var tr1 := high - low;
      var tr2 := Abs(high - prevClose);
      var tr3 := Abs(low - prevClose);
      trueRanges := trueRanges + [Max(Max(tr1, tr2), tr3)];
      i := i + 1;
    }
    assert trueRanges == TrueRanges(candles);
    atr := Some(Sum(Last(trueRanges, period)) / period as real);
  }
}
