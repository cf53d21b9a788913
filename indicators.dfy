/** Rolling-window indicators over a price series: simple moving average,
    standard deviation, highest and lowest value. Entry `i` looks at the
    `period` values ending at `i`; the first `period - 1` entries have no
    full window and hold the not-a-number sentinel, modelled as `None`. */
module Indicators {
  import opened Optional
  import opened Stats

  /** `data.slice(i - period + 1, i + 1)`: the `period` values ending at `i`. */
  function Window(data: seq<real>, i: int, period: nat): (w: seq<real>)
    requires 1 <= period && period - 1 <= i < |data|
    ensures |w| == period
    ensures forall k :: 0 <= k < period ==> w[k] == data[i - period + 1 + k]
  {
    data[i - period + 1 .. i + 1]
  }

  /** Largest element, as `Math.max(...s)`. */
  function MaxOf(s: seq<real>): (m: real)
    requires |s| > 0
    ensures m in s
    ensures forall k :: 0 <= k < |s| ==> s[k] <= m
  {
    if |s| == 1 then s[0]
    else
      var rest := MaxOf(s[..|s| - 1]);
      if s[|s| - 1] > rest then s[|s| - 1] else rest
  }

  /** Smallest element, as `Math.min(...s)`. */
  function MinOf(s: seq<real>): (m: real)
    requires |s| > 0
    ensures m in s
    ensures forall k :: 0 <= k < |s| ==> m <= s[k]
  {
    if |s| == 1 then s[0]
    else
      var rest := MinOf(s[..|s| - 1]);
      if s[|s| - 1] < rest then s[|s| - 1] else rest
  }

  /** calculateSMA: the mean of each full window. */
  function SMA(data: seq<real>, period: nat): (sma: seq<Option<real>>)
    requires 1 <= period
    ensures |sma| == |data|
    ensures forall i :: 0 <= i < |data| ==> (sma[i].None? <==> i < period - 1)
    ensures forall i :: period - 1 <= i < |data| ==> sma[i] == Some(Mean(Window(data, i, period)))
  {
    seq(|data|, i requires 0 <= i < |data| =>
      if i < period - 1 then None else Some(Sum(Window(data, i, period)) / period as real))
  }

  /** calculateStdDev: the population standard deviation of each full window,
      about that window's moving average. */
  function StdDev(data: seq<real>, period: nat, sqrt: real -> real): (sd: seq<Option<real>>)
    requires 1 <= period
    requires IsSqrt(sqrt)
    ensures |sd| == |data|
    ensures forall i :: 0 <= i < |data| ==> (sd[i].None? <==> i < period - 1)
    ensures forall i :: period - 1 <= i < |data| ==>
      0.0 <= sd[i].value && Square(sd[i].value) == PopulationVariance(Window(data, i, period))
  {
    var sma := SMA(data, period);
    var sd := seq(|data|, i requires 0 <= i < |data| =>
      if i < period - 1 then None
      else Some(sqrt(SquaredDeviations(Window(data, i, period), sma[i].value) / period as real)));
    assert forall i :: period - 1 <= i < |data| ==> 0.0 <= PopulationVariance(Window(data, i, period)) by {
      forall i | period - 1 <= i < |data| {
        PopulationVarianceZero(Window(data, i, period));
      }
    }
    sd
  }

  /** calculateHighest: the largest value of each full window. */
  function Highest(data: seq<real>, period: nat): (hi: seq<Option<real>>)
    requires 1 <= period
    ensures |hi| == |data|
    ensures forall i :: 0 <= i < |data| ==> (hi[i].None? <==> i < period - 1)
    ensures forall i :: period - 1 <= i < |data| ==>
      hi[i].value in data[i - period + 1 .. i + 1] &&
      (forall j :: i - period + 1 <= j <= i ==> data[j] <= hi[i].value)
  {
    var hi := seq(|data|, i requires 0 <= i < |data| =>
      if i < period - 1 then None else Some(MaxOf(Window(data, i, period))));
    forall i | period - 1 <= i < |data|
      ensures hi[i].value in data[i - period + 1 .. i + 1]
      ensures forall j :: i - period + 1 <= j <= i ==> data[j] <= hi[i].value
    {
      var w := Window(data, i, period);
      assert hi[i].value == MaxOf(w);
      forall j | i - period + 1 <= j <= i
        ensures data[j] <= hi[i].value
      {
        assert data[j] == w[j - (i - period + 1)];
      }
    }
    hi
  }

  /** calculateLowest: the smallest value of each full window. */
  function Lowest(data: seq<real>, period: nat): (lo: seq<Option<real>>)
    requires 1 <= period
    ensures |lo| == |data|
    ensures forall i :: 0 <= i < |data| ==> (lo[i].None? <==> i < period - 1)
    ensures forall i :: period - 1 <= i < |data| ==>
      lo[i].value in data[i - period + 1 .. i + 1] &&
      (forall j :: i - period + 1 <= j <= i ==> lo[i].value <= data[j])
  {
    var lo := seq(|data|, i requires 0 <= i < |data| =>
      if i < period - 1 then None else Some(MinOf(Window(data, i, period))));
    forall i | period - 1 <= i < |data|
      ensures lo[i].value in data[i - period + 1 .. i + 1]
      ensures forall j :: i - period + 1 <= j <= i ==> lo[i].value <= data[j]
    {
      var w := Window(data, i, period);
      assert lo[i].value == MinOf(w);
      forall j | i - period + 1 <= j <= i
        ensures lo[i].value <= data[j]
      {
        assert data[j] == w[j - (i - period + 1)];
      }
    }
    lo
  }

  /** The moving average of a full window lies between that window's lowest
      and highest values. */
  lemma SmaWithinExtremes(data: seq<real>, period: nat, i: int)
    requires 1 <= period && period - 1 <= i < |data|
    ensures Lowest(data, period)[i].value <= SMA(data, period)[i].value <= Highest(data, period)[i].value
  {
    var w := Window(data, i, period);
    MeanWithin(w, Lowest(data, period)[i].value, Highest(data, period)[i].value);
  }

  /** A window whose values are all `c` has moving average `c` and standard
      deviation zero. */
  lemma ConstantWindow(data: seq<real>, period: nat, sqrt: real -> real, i: int, c: real)
    requires 1 <= period && period - 1 <= i < |data| && IsSqrt(sqrt)
    requires forall j :: i - period + 1 <= j <= i ==> data[j] == c
    ensures SMA(data, period)[i] == Some(c)
    ensures StdDev(data, period, sqrt)[i] == Some(0.0)
  {
    var w := Window(data, i, period);
    MeanConstant(w, c);
    PopulationVarianceZero(w);
    SqrtZero(sqrt, PopulationVariance(w));
  }

  /** The standard deviation of a full window is zero exactly when every value
      of the window equals its moving average. */
  lemma StdDevZero(data: seq<real>, period: nat, sqrt: real -> real, i: int)
    requires 1 <= period && period - 1 <= i < |data| && IsSqrt(sqrt)
    ensures StdDev(data, period, sqrt)[i] == Some(0.0) <==>
      forall j :: i - period + 1 <= j <= i ==> data[j] == SMA(data, period)[i].value
  {
    var w := Window(data, i, period);
    PopulationVarianceZero(w);
    SqrtZero(sqrt, PopulationVariance(w));
    var sd := StdDev(data, period, sqrt)[i].value;
    SquareSign(sd);
    if forall j :: i - period + 1 <= j <= i ==> data[j] == SMA(data, period)[i].value {
      assert forall k :: 0 <= k < |w| ==> w[k] == Mean(w);
    }
  }
}
