/** The timeframe trend classifier, `calculate_trend`: a crossover of a short
    and a long moving average of closes, with one fixed pair of periods per
    timeframe tag. */
module TrendClassifier {
  import opened Numeric
  import opened Types
  import opened Indicators

  /** The long moving-average period of a timeframe tag. */
  function LongPeriod(tf: Timeframe): nat
  {
    match tf
    case M5 => 72
    case M15 => 32
    case H1 => 50
    case H4 => 30
    case Other => 60
  }

  /** The short moving-average period of a timeframe tag; always shorter than the long one. */
  function ShortPeriod(tf: Timeframe): (n: nat)
    ensures 1 <= n < LongPeriod(tf)
  {
    match tf
    case M5 => 12
    case M15 => 8
    case H1 => 20
    case H4 => 10
    case Other => 6
  }

  /** `calculate_trend(candles, timeframe)`. */
  function CalculateTrend(candles: seq<Candle>, tf: Timeframe): (r: Trend)
    ensures |candles| < LongPeriod(tf) ==> r == Sideways
  {
    if |candles| == 0 then Sideways
    else if |candles| < LongPeriod(tf) then Sideways
    else
      var closes := Closes(candles);
      var shortMa := Sma(closes, ShortPeriod(tf));
      var longMa := Sma(closes, LongPeriod(tf));
      if shortMa > longMa then Uptrend
      else if shortMa < longMa then Downtrend
      else Sideways
  }

  /** The last `ShortPeriod` closes: the recent window of the crossover. */
  function RecentWindow(candles: seq<Candle>, tf: Timeframe): seq<real>
    requires |candles| >= LongPeriod(tf)
  {
    Last(Closes(candles), ShortPeriod(tf))
  }

  /** The `LongPeriod - ShortPeriod` closes before the recent window. */
  function OlderWindow(candles: seq<Candle>, tf: Timeframe): seq<real>
    requires |candles| >= LongPeriod(tf)
  {
    var n := |candles|;
    Closes(candles)[n - LongPeriod(tf)..n - ShortPeriod(tf)]
  }

  /** The arithmetic behind the crossover: with `s < l`, the mean of `s` recent
      values exceeds the mean of all `l` values iff it exceeds the mean of the
      `l - s` older values, and likewise for "below". */
  lemma CrossoverArithmetic(sumRecent: real, sumOlder: real, s: real, l: real)
    requires 0.0 < s < l
    ensures sumRecent / s > (sumOlder + sumRecent) / l <==> sumRecent / s > sumOlder / (l - s)
    ensures sumRecent / s < (sumOlder + sumRecent) / l <==> sumRecent / s < sumOlder / (l - s)
  {
    var a, b := sumRecent / s, sumOlder / (l - s);
    assert sumRecent == a * s;
    assert sumOlder == b * (l - s);
    var lm := (sumOlder + sumRecent) / l;
    assert lm * l == a * s + b * (l - s);
    assert (a - lm) * l == (l - s) * (a - b);
    assert a > lm <==> (a - lm) * l > 0.0;
    assert a < lm <==> (a - lm) * l < 0.0;
    assert a > b <==> (l - s) * (a - b) > 0.0;
    assert a < b <==> (l - s) * (a - b) < 0.0;
  }

  /** With enough data the classifier is a comparison of means: uptrend iff the
      recent window averages above the older window, downtrend iff below,
      sideways iff they are equal. */
  lemma TrendByWindows(candles: seq<Candle>, tf: Timeframe)
    requires |candles| >= LongPeriod(tf)
    ensures CalculateTrend(candles, tf) == Uptrend <==> Mean(RecentWindow(candles, tf)) > Mean(OlderWindow(candles, tf))
    ensures CalculateTrend(candles, tf) == Downtrend <==> Mean(RecentWindow(candles, tf)) < Mean(OlderWindow(candles, tf))
    ensures CalculateTrend(candles, tf) == Sideways <==> Mean(RecentWindow(candles, tf)) == Mean(OlderWindow(candles, tf))
  {
    var sp, lp := ShortPeriod(tf), LongPeriod(tf);
    var recent, older := RecentWindow(candles, tf), OlderWindow(candles, tf);
    SmasByWindows(candles, tf);
    CrossoverArithmetic(Sum(recent), Sum(older), sp as real, lp as real);
  }

  /** The two averages of the crossover in terms of the two windows. */
  lemma SmasByWindows(candles: seq<Candle>, tf: Timeframe)
    requires |candles| >= LongPeriod(tf)
    ensures |RecentWindow(candles, tf)| == ShortPeriod(tf)
    ensures |OlderWindow(candles, tf)| == LongPeriod(tf) - ShortPeriod(tf)
    ensures Sma(Closes(candles), ShortPeriod(tf)) == Sum(RecentWindow(candles, tf)) / ShortPeriod(tf) as real
    ensures Sma(Closes(candles), LongPeriod(tf))
         == (Sum(OlderWindow(candles, tf)) + Sum(RecentWindow(candles, tf))) / LongPeriod(tf) as real
  {
    var closes := Closes(candles);
    var older, recent := OlderWindow(candles, tf), RecentWindow(candles, tf);
    assert Last(closes, LongPeriod(tf)) == older + recent;
    SumAppend(older, recent);
  }

  /** A flat market (every close the same) is sideways on every timeframe. */
  lemma TrendOfFlatSeries(candles: seq<Candle>, tf: Timeframe, price: real)
    requires forall i :: 0 <= i < |candles| ==> candles[i].close == price
    ensures CalculateTrend(candles, tf) == Sideways
  {
    if |candles| >= LongPeriod(tf) {
      var closes := Closes(candles);
      SmaWithin(closes, ShortPeriod(tf), price, price);
      SmaWithin(closes, LongPeriod(tf), price, price);
    }
  }
}
