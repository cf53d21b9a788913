/** The three strategy evaluators. Each maps the price series to one signal
    per bar: 1 (buy), -1 (sell) or 0 (no action or not enough history). */
module Strategies {
  import opened Optional
  import opened Stats
  import opened Indicators

  const MomentumPeriod: nat := 10
  const MeanReversionPeriod: nat := 20
  const BreakoutPeriod: nat := 20
  /** Width of the mean-reversion bands, in standard deviations. */
  const BandWidth: real := 2.0

  predicate IsSignal(s: int)
  {
    s == -1 || s == 0 || s == 1
  }

  /** `x > y`, where a comparison with the not-a-number sentinel is false. */
  predicate Above(x: real, y: Option<real>)
  {
    y.Some? && x > y.value
  }

  /** `x < y`, where a comparison with the not-a-number sentinel is false. */
  predicate Below(x: real, y: Option<real>)
  {
    y.Some? && x < y.value
  }

  /** `x` is strictly greater than every element of `s`. */
  predicate AboveAll(x: real, s: seq<real>)
  {
    forall k :: 0 <= k < |s| ==> x > s[k]
  }

  /** `x` is strictly smaller than every element of `s`. */
  predicate BelowAll(x: real, s: seq<real>)
  {
    forall k :: 0 <= k < |s| ==> x < s[k]
  }

  /** The mean-reversion bands at bar `i`: the mean of the last 20 closes,
      minus or plus twice their population standard deviation. */
  function LowerBand(closes: seq<real>, i: int, sqrt: real -> real): real
    requires MeanReversionPeriod - 1 <= i < |closes|
  {
    var w := Window(closes, i, MeanReversionPeriod);
    Mean(w) - BandWidth * sqrt(PopulationVariance(w))
  }

  function UpperBand(closes: seq<real>, i: int, sqrt: real -> real): real
    requires MeanReversionPeriod - 1 <= i < |closes|
  {
    var w := Window(closes, i, MeanReversionPeriod);
    Mean(w) + BandWidth * sqrt(PopulationVariance(w))
  }

  /** The lower band never lies above the window mean, nor the upper band
      below it, so a close cannot be both below the one and above the other. */
  lemma BandsOrdered(closes: seq<real>, i: int, sqrt: real -> real)
    requires MeanReversionPeriod - 1 <= i < |closes| && IsSqrt(sqrt)
    ensures LowerBand(closes, i, sqrt) <= Mean(Window(closes, i, MeanReversionPeriod)) <= UpperBand(closes, i, sqrt)
  {
    PopulationVarianceZero(Window(closes, i, MeanReversionPeriod));
  }

  /** momentumStrategy: no signal while the 10-bar average is undefined; then
      buy when the close is above the average of the last 10 closes, and sell
      otherwise, so no bar after the warm-up is left without a signal. */
  function Momentum(closes: seq<real>): (signals: seq<int>)
    ensures |signals| == |closes|
    ensures forall i :: 0 <= i < |closes| ==> IsSignal(signals[i])
    ensures forall i :: 0 <= i < |closes| ==> (signals[i] == 0 <==> i < MomentumPeriod - 1)
    ensures forall i :: MomentumPeriod - 1 <= i < |closes| ==>
      (signals[i] == 1 <==> closes[i] > Mean(Window(closes, i, MomentumPeriod)))
  {
    var sma := SMA(closes, MomentumPeriod);
    seq(|closes|, i requires 0 <= i < |closes| =>
      if sma[i].None? then 0
      else if Above(closes[i], sma[i]) then 1
      else -1)
  }

  /** meanReversionStrategy: no signal during the 20-bar warm-up; then buy
      below the lower band, sell above the upper band, and hold inside them. */
  function MeanReversion(closes: seq<real>, sqrt: real -> real): (signals: seq<int>)
    requires IsSqrt(sqrt)
    ensures |signals| == |closes|
    ensures forall i :: 0 <= i < |closes| ==> IsSignal(signals[i])
    ensures forall i :: 0 <= i < |closes| && i < MeanReversionPeriod - 1 ==> signals[i] == 0
    ensures forall i :: MeanReversionPeriod - 1 <= i < |closes| ==>
      (signals[i] == 1 <==> closes[i] < LowerBand(closes, i, sqrt)) &&
      (signals[i] == -1 <==> closes[i] > UpperBand(closes, i, sqrt))
  {
    var sma := SMA(closes, MeanReversionPeriod);
    var sd := StdDev(closes, MeanReversionPeriod, sqrt);
    seq(|closes|, i requires 0 <= i < |closes| =>
      if sma[i].None? || sd[i].None? then 0
      else if closes[i] < sma[i].value - BandWidth * sd[i].value then 1
      else if closes[i] > sma[i].value + BandWidth * sd[i].value then -1
      else 0)
  }

  /** The breakout rule at bar `i`, given the rolling highest highs and
      lowest lows. */
  function BreakoutAt(highestHigh: seq<Option<real>>, lowestLow: seq<Option<real>>, closes: seq<real>, i: int): int
    requires |highestHigh| == |lowestLow| == |closes| && 0 <= i < |closes|
  {
    if highestHigh[i].None? || lowestLow[i].None? then 0
    else if i > 0 && Above(closes[i], highestHigh[i - 1]) then 1
    else if i > 0 && Below(closes[i], lowestLow[i - 1]) then -1
    else 0
  }

  /** breakoutStrategy: buy when the close breaks above the highest high of the
      20 bars before it, sell when it breaks below their lowest low. A bar
      without a full window, or whose previous bar has none, gets no signal. */
  function Breakout(highs: seq<real>, lows: seq<real>, closes: seq<real>): (signals: seq<int>)
    requires |highs| == |closes| && |lows| == |closes|
    ensures |signals| == |closes|
    ensures forall i :: 0 <= i < |closes| ==> IsSignal(signals[i])
    ensures forall i :: 0 <= i < |closes| ==>
      (signals[i] == 1 <==> i >= BreakoutPeriod && AboveAll(closes[i], highs[i - BreakoutPeriod .. i]))
    ensures forall i :: 0 <= i < |closes| ==>
      (signals[i] == -1 <==> i >= BreakoutPeriod && !AboveAll(closes[i], highs[i - BreakoutPeriod .. i])
                                                 && BelowAll(closes[i], lows[i - BreakoutPeriod .. i]))
  {
    var highestHigh := Highest(highs, BreakoutPeriod);
    var lowestLow := Lowest(lows, BreakoutPeriod);
    var signals := seq(|closes|, i requires 0 <= i < |closes| => BreakoutAt(highestHigh, lowestLow, closes, i));
    forall i | 0 <= i < |closes|
      ensures signals[i] == 1 <==> i >= BreakoutPeriod && AboveAll(closes[i], highs[i - BreakoutPeriod .. i])
      ensures signals[i] == -1 <==> i >= BreakoutPeriod && !AboveAll(closes[i], highs[i - BreakoutPeriod .. i])
                                                      && BelowAll(closes[i], lows[i - BreakoutPeriod .. i])
    {
      if i >= BreakoutPeriod {
        AbovePriorHighest(highs, BreakoutPeriod, i, closes[i]);
        BelowPriorLowest(lows, BreakoutPeriod, i, closes[i]);
      } else if i > 0 {
        assert highestHigh[i - 1].None?;
      }
    }
    signals
  }

  /** Beating the previous bar's rolling highest value means beating every
      value of the `period` bars before bar `i`. */
  lemma AbovePriorHighest(data: seq<real>, period: nat, i: int, x: real)
    requires 1 <= period <= i < |data|
    ensures Above(x, Highest(data, period)[i - 1]) <==> AboveAll(x, data[i - period .. i])
  {
    var w := data[i - period .. i];
    assert forall k :: 0 <= k < |w| ==> w[k] == data[i - period + k];
  }

  /** Falling below the previous bar's rolling lowest value means falling
      below every value of the `period` bars before bar `i`. */
  lemma BelowPriorLowest(data: seq<real>, period: nat, i: int, x: real)
    requires 1 <= period <= i < |data|
    ensures Below(x, Lowest(data, period)[i - 1]) <==> BelowAll(x, data[i - period .. i])
  {
    var w := data[i - period .. i];
    assert forall k :: 0 <= k < |w| ==> w[k] == data[i - period + k];
  }

  /** On a strictly rising series every bar after the warm-up is a buy. */
  lemma MomentumRising(closes: seq<real>)
    requires StrictlyRising(closes)
    ensures forall i :: MomentumPeriod - 1 <= i < |closes| ==> Momentum(closes)[i] == 1
  {
    forall i | MomentumPeriod - 1 <= i < |closes|
      ensures Momentum(closes)[i] == 1
    {
      var w := Window(closes, i, MomentumPeriod);
      MeanBelowLast(w);
    }
  }

  /** On a constant series the bands collapse onto the price: mean reversion
      never signals. */
  lemma MeanReversionConstant(closes: seq<real>, sqrt: real -> real, c: real)
    requires IsSqrt(sqrt)
    requires forall k :: 0 <= k < |closes| ==> closes[k] == c
    ensures forall i :: 0 <= i < |closes| ==> MeanReversion(closes, sqrt)[i] == 0
  {
    forall i | MeanReversionPeriod - 1 <= i < |closes|
      ensures MeanReversion(closes, sqrt)[i] == 0
    {
      ConstantWindow(closes, MeanReversionPeriod, sqrt, i, c);
    }
  }
}
