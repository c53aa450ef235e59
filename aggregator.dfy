/** The signal aggregator: the first part of `enhanced_trend_analysis`, which
    counts the 5m/15m/1h trend votes into an alignment class and sets the
    initial trend, confidence and reason. */
module Aggregator {
  import opened Types

  /** The three timeframe votes (`timeframe_details`). */
  datatype Votes = Votes(m5: Trend, m15: Trend, h1: Trend)

  /** `[trend_5m, trend_15m, trend_1h].count(t)`. */
  function Count(v: Votes, t: Trend): (n: nat)
    ensures n <= 3
  {
    (if v.m5 == t then 1 else 0) + (if v.m15 == t then 1 else 0) + (if v.h1 == t then 1 else 0)
  }

  /** Three votes cannot hold two majorities. */
  lemma CountsShareThree(v: Votes)
    ensures Count(v, Uptrend) + Count(v, Downtrend) + Count(v, Sideways) == 3
  {
  }

  /** `timeframe_alignment`: unanimous when all three agree, majority when
      exactly two agree, conflicting when neither direction has two votes. */
  function AlignmentOf(v: Votes): (a: Alignment)
    ensures a == AllUptrend <==> Count(v, Uptrend) == 3
    ensures a == AllDowntrend <==> Count(v, Downtrend) == 3
    ensures a == MajorityUptrend <==> Count(v, Uptrend) == 2
    ensures a == MajorityDowntrend <==> Count(v, Downtrend) == 2
    ensures a == Conflicting <==> Count(v, Uptrend) < 2 && Count(v, Downtrend) < 2
  {
    var up, down := Count(v, Uptrend), Count(v, Downtrend);
    CountsShareThree(v);
    if up == 3 then AllUptrend
    else if down == 3 then AllDowntrend
    else if up >= 2 then MajorityUptrend
    else if down >= 2 then MajorityDowntrend
    else Conflicting
  }

  /** Upper RSI bound for a unanimous uptrend, lower bound for a unanimous downtrend. */
  const UpRsiLimit: real := 75.0
  const DownRsiLimit: real := 25.0

  /** The trend, confidence and reason before any filter runs. A direction, and
      with it high confidence, needs all three votes and RSI on the
      non-extreme side; every other case is sideways with low confidence. */
  function InitialVerdict(v: Votes, rsi: real): (r: Verdict)
    ensures r.trend == Uptrend <==> Count(v, Uptrend) == 3 && rsi < UpRsiLimit
    ensures r.trend == Downtrend <==> Count(v, Downtrend) == 3 && rsi > DownRsiLimit
    ensures r.confidence == High <==> r.trend != Sideways
    ensures r.confidence != Medium && !r.bypassed
  {
    var up, down := Count(v, Uptrend), Count(v, Downtrend);
    if up == 3 && rsi < UpRsiLimit then Verdict(Uptrend, High, AllAgreeUp, false)
    else if down == 3 && rsi > DownRsiLimit then Verdict(Downtrend, High, AllAgreeDown, false)
    else if up + down == 0 then Verdict(Sideways, Low, AllSideways, false)
    else if up >= 2 && rsi >= UpRsiLimit then Verdict(Sideways, Low, MajorityUpOverbought(rsi), false)
    else if down >= 2 && rsi <= DownRsiLimit then Verdict(Sideways, Low, MajorityDownOversold(rsi), false)
    else Verdict(Sideways, Low, ConflictingSignals, false)
  }

  /** Which reason the verdict carries: each reason holds exactly when its
      condition does, the conditions tried in order. */
  lemma InitialReason(v: Votes, rsi: real)
    ensures var r := InitialVerdict(v, rsi);
      && (r.reason == AllAgreeUp <==> r.trend == Uptrend)
      && (r.reason == AllAgreeDown <==> r.trend == Downtrend)
      && (r.reason == AllSideways <==> Count(v, Sideways) == 3)
      && (r.reason == MajorityUpOverbought(rsi) <==> Count(v, Uptrend) >= 2 && rsi >= UpRsiLimit)
      && (r.reason == MajorityDownOversold(rsi) <==> Count(v, Downtrend) >= 2 && rsi <= DownRsiLimit)
      && (r.reason == ConflictingSignals <==>
            r.trend == Sideways && Count(v, Sideways) < 3
            && !(Count(v, Uptrend) >= 2 && rsi >= UpRsiLimit)
            && !(Count(v, Downtrend) >= 2 && rsi <= DownRsiLimit))
  {
    CountsShareThree(v);
  }
}
