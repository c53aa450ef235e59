/** The martingale ladder: when the market moves against the open positions by
    a growing distance, one more position is added with a linearly growing
    volume, and every position is given one shared take-profit. */
module Ladder {
  import opened Numeric
  import opened Types

  /** One open position as the broker reports it; oldest first in a list. */
  datatype Position = Position(id: string, side: Side, openPrice: real, currentPrice: real, volume: real)

  /** A `POSITION_MODIFY` request: give position `positionId` this take-profit. */
  datatype Modification = Modification(positionId: string, takeProfit: real)

  /** The distance unit between rungs: the n-th rung waits for a move of 10 * (n + 1). */
  const RungSpacing: real := 10.0

  /** The take-profit buffer used when none is configured. */
  const DefaultTakeProfitBuffer: real := 2.0

  /** `first_position`: the oldest open position. */
  function FirstPosition(ps: seq<Position>): (p: Position)
    requires |ps| > 0
    ensures p in ps && p == ps[0]
  {
    ps[0]
  }

  /** `latest_position`: the newest open position. */
  function LatestPosition(ps: seq<Position>): (p: Position)
    requires |ps| > 0
    ensures p in ps && p == ps[|ps| - 1]
  {
    ps[|ps| - 1]
  }

  /** Adding a rung keeps the oldest position and makes the rung the newest, so
      the next threshold is measured from the rung, one spacing further out. */
  lemma AddRungPositions(ps: seq<Position>, rung: Position)
    requires |ps| > 0
    ensures FirstPosition(ps + [rung]) == FirstPosition(ps)
    ensures LatestPosition(ps + [rung]) == rung
    ensures Abs(NextPotentialPosition(ps + [rung]) - rung.openPrice) == RungSpacing * (|ps| + 2) as real
  {
  }

  /** `next_potential_position`: the threshold price for the next rung, placed
      `10 * (n + 1)` from the latest position's open price, below it for a
      buy ladder and above it for a sell ladder. */
  function NextPotentialPosition(ps: seq<Position>): (p: real)
    requires |ps| > 0
    ensures Abs(p - LatestPosition(ps).openPrice) == RungSpacing * (|ps| + 1) as real
    ensures p < LatestPosition(ps).openPrice <==> LatestPosition(ps).side == Buy
  {
    var latest := LatestPosition(ps);
    var distance := RungSpacing * (|ps| + 1) as real;
    if latest.side == Buy then latest.openPrice - distance else latest.openPrice + distance
  }

  /** The next rung's volume: the first position's volume times `n + 1`; on a
      linear ladder that is one first volume more than the latest rung's. */
  function NextLotSize(ps: seq<Position>): (v: real)
    requires |ps| > 0
    ensures LinearVolumes(ps) ==> v == LatestPosition(ps).volume + FirstPosition(ps).volume
    ensures FirstPosition(ps).volume >= 0.0 ==> v >= FirstPosition(ps).volume
  {
    var first := FirstPosition(ps).volume;
    var n := |ps|;
    if LinearVolumes(ps) then
      assert LatestPosition(ps).volume == first * n as real;
      first * (n + 1) as real
    else
      first * (n + 1) as real
  }

  /** `should_place_trade?`: a rung is added exactly when the latest position's
      current price has moved against it by strictly more than `10 * (n + 1)`. */
  function ShouldPlaceTrade(ps: seq<Position>): (b: bool)
    requires |ps| > 0
    ensures b <==>
      var latest, distance := LatestPosition(ps), RungSpacing * (|ps| + 1) as real;
      (latest.side == Buy && latest.openPrice - latest.currentPrice > distance) ||
      (latest.side == Sell && latest.currentPrice - latest.openPrice > distance)
  {
    var latest := LatestPosition(ps);
    var threshold := NextPotentialPosition(ps);
    (latest.side == Buy && threshold > latest.currentPrice) || (latest.side == Sell && threshold < latest.currentPrice)
  }

  /** The open prices of a list of positions. */
  function OpenPrices(ps: seq<Position>): (r: seq<real>)
    ensures |r| == |ps| && forall i :: 0 <= i < |ps| ==> r[i] == ps[i].openPrice
  {
    seq(|ps|, i requires 0 <= i < |ps| => ps[i].openPrice)
  }

  /** `next_take_profit(positions, new_position_price)`: the mean of the open
      prices and the new price. */
  function NextTakeProfit(ps: seq<Position>, newPrice: real): (tp: real)
    ensures tp == Mean(OpenPrices(ps) + [newPrice])
  {
    SumAppend(OpenPrices(ps), [newPrice]);
    assert Sum([newPrice]) == newPrice + Sum([]);
    (Sum(OpenPrices(ps)) + newPrice) / (|ps| + 1) as real
  }

  /** `take_profit_buffer`: the configured buffer (2 by default), added for a
      buy ladder and subtracted otherwise. */
  function TakeProfitBuffer(side: Side, configured: Option<real>): (b: real)
    ensures side == Buy ==> b == configured.GetOr(DefaultTakeProfitBuffer)
    ensures side == Sell ==> b == -configured.GetOr(DefaultTakeProfitBuffer)
  {
    var buffer := configured.GetOr(DefaultTakeProfitBuffer);
    if side == Buy then buffer else 0.0 - buffer
  }

  /** The take-profit `update_trades` gives every position: the mean open price
      plus the first position's signed buffer; when all positions opened at the
      same price, that price plus the buffer. */
  function SharedTakeProfit(ps: seq<Position>, configured: Option<real>): (tp: real)
    requires |ps| > 0
    ensures (forall i :: 0 <= i < |ps| ==> ps[i].openPrice == ps[0].openPrice)
            ==> tp == ps[0].openPrice + TakeProfitBuffer(ps[0].side, configured)
  {
    var p := ps[0].openPrice;
    if forall i :: 0 <= i < |ps| ==> ps[i].openPrice == p then
      MeanBounds(OpenPrices(ps), p, p);
      Mean(OpenPrices(ps)) + TakeProfitBuffer(FirstPosition(ps).side, configured)
    else
      Mean(OpenPrices(ps)) + TakeProfitBuffer(FirstPosition(ps).side, configured)
  }

  /** `update_trades` over a given non-empty position list: one modification per
      position, in order, all with the shared take-profit. */
  method UpdateTrades(ps: seq<Position>, configured: Option<real>) returns (mods: seq<Modification>)
    requires |ps| > 0
    ensures |mods| == |ps|
    ensures forall i :: 0 <= i < |ps| ==>
              mods[i].positionId == ps[i].id && mods[i].takeProfit == SharedTakeProfit(ps, configured)
  {
    var prices := Sum(OpenPrices(ps));
    var takeProfit := prices / |ps| as real + TakeProfitBuffer(FirstPosition(ps).side, configured);
    mods := [];
    var i := 0;
    while i < |ps|
      invariant 0 <= i <= |ps| && |mods| == i
      invariant forall k :: 0 <= k < i ==> mods[k] == Modification(ps[k].id, takeProfit)
    {
      mods := mods + [Modification(ps[i].id, takeProfit)];
      i := i + 1;
    }
  }

  /** The provisional take-profit of a new rung lies between the lowest and the
      highest of the open prices and the threshold price. */
  lemma NextTakeProfitWithin(ps: seq<Position>, newPrice: real, lo: real, hi: real)
    requires forall i :: 0 <= i < |ps| ==> lo <= ps[i].openPrice <= hi
    requires lo <= newPrice <= hi
    ensures lo <= NextTakeProfit(ps, newPrice) <= hi
  {
    var all := OpenPrices(ps) + [newPrice];
    SumAppend(OpenPrices(ps), [newPrice]);
    assert Sum([newPrice]) == newPrice;
    MeanBounds(all, lo, hi);
  }

  /** The shared take-profit is the mean open price shifted by the buffer, so it
      lies within the open prices' range shifted by the buffer. */
  lemma SharedTakeProfitWithin(ps: seq<Position>, configured: Option<real>, lo: real, hi: real)
    requires |ps| > 0
    requires forall i :: 0 <= i < |ps| ==> lo <= ps[i].openPrice <= hi
    ensures var b := TakeProfitBuffer(FirstPosition(ps).side, configured);
            lo + b <= SharedTakeProfit(ps, configured) <= hi + b
  {
    MeanBounds(OpenPrices(ps), lo, hi);
  }

  /** If the new rung opens exactly at its threshold price, the shared
      take-profit `update_trades` then sets is the provisional take-profit of
      the order plus the buffer. */
  lemma RungAtThresholdMatchesProvisional(ps: seq<Position>, rung: Position, configured: Option<real>)
    requires |ps| > 0 && rung.openPrice == NextPotentialPosition(ps)
    ensures SharedTakeProfit(ps + [rung], configured)
         == NextTakeProfit(ps, NextPotentialPosition(ps)) + TakeProfitBuffer(FirstPosition(ps).side, configured)
  {
    assert OpenPrices(ps + [rung]) == OpenPrices(ps) + [rung.openPrice];
    SumAppend(OpenPrices(ps), [rung.openPrice]);
    assert Sum([rung.openPrice]) == rung.openPrice;
    assert FirstPosition(ps + [rung]) == FirstPosition(ps);
  }

  /** Volumes that grow linearly with the first volume: 1x, 2x, 3x, ... */
  predicate LinearVolumes(ps: seq<Position>)
  {
    |ps| > 0 && forall i :: 0 <= i < |ps| ==> ps[i].volume == ps[0].volume * (i + 1) as real
  }

  /** Adding a rung with `NextLotSize` keeps a linear ladder linear. */
  lemma NextLotKeepsLinear(ps: seq<Position>, rung: Position)
    requires LinearVolumes(ps) && rung.volume == NextLotSize(ps)
    ensures LinearVolumes(ps + [rung])
  {
    var qs := ps + [rung];
    forall i | 0 <= i < |qs|
      ensures qs[i].volume == qs[0].volume * (i + 1) as real
    {
      if i < |ps| {
        assert qs[i] == ps[i];
      }
    }
  }

  /** In a linear ladder of n positions the total volume is the first volume
      times the triangular number `n(n+1)/2`. */
  lemma {:induction false} LinearTotalVolume(ps: seq<Position>)
    requires LinearVolumes(ps)
    ensures 2.0 * Sum(Volumes(ps)) == ps[0].volume * (|ps| * (|ps| + 1)) as real
    decreases |ps|
  {
    var n := |ps|;
    if n == 1 {
      assert Volumes(ps) == [ps[0].volume];
      assert Sum([ps[0].volume]) == ps[0].volume + Sum([]);
    } else {
      var init := ps[..n - 1];
      assert LinearVolumes(init) by {
        forall i | 0 <= i < |init| ensures init[i].volume == init[0].volume * (i + 1) as real {
          assert init[i] == ps[i];
        }
      }
      LinearTotalVolume(init);
      LastRungVolume(ps, init);
      TriangleStep(ps[0].volume, n);
    }
  }

  /** Splitting off the last rung of a linear ladder. */
  lemma LastRungVolume(ps: seq<Position>, init: seq<Position>)
    requires LinearVolumes(ps) && |ps| >= 2 && init == ps[..|ps| - 1]
    ensures Sum(Volumes(ps)) == Sum(Volumes(init)) + ps[0].volume * |ps| as real
    ensures init[0] == ps[0]
  {
    var n := |ps|;
    assert Volumes(ps) == Volumes(init) + [ps[n - 1].volume];
    SumAppend(Volumes(init), [ps[n - 1].volume]);
    assert Sum([ps[n - 1].volume]) == ps[n - 1].volume + Sum([]);
  }

  /** The volumes of a list of positions. */
  function Volumes(ps: seq<Position>): (r: seq<real>)
    ensures |r| == |ps| && forall i :: 0 <= i < |ps| ==> r[i] == ps[i].volume
  {
    seq(|ps|, i requires 0 <= i < |ps| => ps[i].volume)
  }

  lemma TriangleStep(v: real, n: nat)
    requires n >= 1
    ensures v * ((n - 1) * n) as real + 2.0 * (v * n as real) == v * (n * (n + 1)) as real
  {
    assert (n - 1) * n + 2 * n == n * (n + 1);
    assert ((n - 1) * n) as real + 2.0 * n as real == (n * (n + 1)) as real;
  }
}
