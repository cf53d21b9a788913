/** The single-position trading simulation and its performance metrics
    (calculateMetrics). The account is flat (position 0) or long one unit
    (position 1); while long, equity compounds by each bar's close-to-close
    return. */
module Simulator {
  import opened Stats

  /** Starting capital of every run. */
  const InitialCapital: real := 10000.0
  /** Trading periods per year used to annualise the Sharpe ratio. */
  const TradingDays: real := 252.0

  /** The simulator's state after some number of bars. */
  datatype Account = Account(
    position: int,
    equity: real,
    curve: seq<real>,
    barReturns: seq<real>,
    wins: nat,
    trades: nat)

  /** A value that JavaScript division can make infinite: the Sharpe ratio
      when the returns have zero deviation but a non-zero mean. */
  datatype Ratio = Finite(value: real) | Infinite(negative: bool)

  /** What calculateMetrics returns. */
  datatype Metrics = Metrics(
    totalReturn: real,
    sharpeRatio: Ratio,
    maxDrawdown: real,
    winRate: real,
    equityCurve: seq<real>)

  /** Every close that serves as a divisor of a daily return is non-zero. */
  predicate NonzeroDivisors(closes: seq<real>)
  {
    forall k :: 0 <= k < |closes| - 1 ==> closes[k] != 0.0
  }

  /** Close-to-close return of bar `i`. */
  function DailyReturn(closes: seq<real>, i: int): real
    requires 1 <= i < |closes| && NonzeroDivisors(closes)
  {
    (closes[i] - closes[i - 1]) / closes[i - 1]
  }

  /** The account before the first bar is processed. */
  function Start(): Account
  {
    Account(0, InitialCapital, [InitialCapital], [], 0, 0)
  }

  /** One pass of the bar loop of calculateMetrics at bar `i`: apply the
      signal to the position (counting a trade, and a win, when a long
      position is closed), then compound equity if long and record the bar's
      return and equity. */
  function Step(a: Account, closes: seq<real>, signals: seq<int>, i: int): Account
    requires 1 <= i < |closes| == |signals| && NonzeroDivisors(closes)
    requires |a.curve| > 0
  {
    var r := DailyReturn(closes, i);
    var exits := !(signals[i] == 1 && a.position == 0) && signals[i] == -1 && a.position == 1;
    var position :=
      if signals[i] == 1 && a.position == 0 then 1
      else if exits then 0
      else a.position;
    var trades := if exits then a.trades + 1 else a.trades;
    var wins := if exits && a.equity > a.curve[|a.curve| - 1] then a.wins + 1 else a.wins;
    var equity := if position == 1 then a.equity * (1.0 + r) else a.equity;
    var ret := if position == 1 then r else 0.0;
    Account(position, equity, a.curve + [equity], a.barReturns + [ret], wins, trades)
  }

  /** The account after bars 1 .. n-1 (bar 0 only seeds the curve). The
      equity is always the last point of the curve, so the win test never
      succeeds and no trade is ever counted as a win. */
  function Run(closes: seq<real>, signals: seq<int>, n: int): (a: Account)
    requires 1 <= n <= |closes| == |signals| && NonzeroDivisors(closes)
    ensures |a.curve| == n && a.curve[0] == InitialCapital
    ensures |a.barReturns| == n - 1
    ensures a.position == 0 || a.position == 1
    ensures a.equity == a.curve[n - 1]
    ensures a.wins == 0 && a.trades <= n - 1
  {
    if n == 1 then Start()
    else Step(Run(closes, signals, n - 1), closes, signals, n - 1)
  }

  /** The highest curve value among points 0 .. k. */
  function RunningPeak(curve: seq<real>, k: int): (p: real)
    requires 0 <= k < |curve|
    ensures curve[0] <= p
    ensures forall j :: 0 <= j <= k ==> curve[j] <= p
  {
    if k == 0 then curve[0]
    else
      var q := RunningPeak(curve, k - 1);
      if curve[k] > q then curve[k] else q
  }

  /** Percentage fall of point k below the running peak. */
  function Drawdown(curve: seq<real>, k: int): real
    requires 0 <= k < |curve| && 0.0 < curve[0]
  {
    var p := RunningPeak(curve, k);
    (p - curve[k]) / p * 100.0
  }

  /** The largest drawdown among points 0 .. n-1, or 0 when there is none. */
  function MaxDrawdown(curve: seq<real>, n: int): (d: real)
    requires 0 <= n <= |curve| && 0 < |curve| && 0.0 < curve[0]
    ensures 0.0 <= d
    ensures forall k :: 0 <= k < n ==> Drawdown(curve, k) <= d
  {
    if n == 0 then 0.0
    else
      var d := MaxDrawdown(curve, n - 1);
      var dd := Drawdown(curve, n - 1);
      if dd > d then dd else d
  }

  /** The reported Sharpe ratio: mean over population standard deviation of
      the per-bar returns, annualised. A not-a-number result (no returns, or
      zero mean over zero deviation) is reported as 0; a non-zero mean over
      zero deviation is infinite. */
  function SharpeRatio(barReturns: seq<real>, sqrt: real -> real): (ratio: Ratio)
    requires IsSqrt(sqrt)
    ensures ratio.Infinite? ==>
      0 < |barReturns| && Mean(barReturns) != 0.0
      && ratio.negative == (Mean(barReturns) < 0.0)
      && forall k :: 0 <= k < |barReturns| ==> barReturns[k] == Mean(barReturns)
  {
    if |barReturns| == 0 then Finite(0.0)
    else
      PopulationVarianceZero(barReturns);
      SqrtZero(sqrt, PopulationVariance(barReturns));
      var avg := Mean(barReturns);
      var stdDev := sqrt(PopulationVariance(barReturns));
      if stdDev == 0.0 then
        (if avg == 0.0 then Finite(0.0) else Infinite(avg < 0.0))
      else Finite(avg / stdDev * sqrt(TradingDays))
  }

  /** The bar loop of calculateMetrics: from bar 1 on, apply each bar's
      signal to the position, compound equity while long, and record the
      bar's return and equity. */
  method SimulateBars(closes: seq<real>, signals: seq<int>) returns (a: Account)
    requires 1 <= |closes| == |signals| && NonzeroDivisors(closes)
    ensures |a.curve| == |closes| && a.curve[0] == InitialCapital
    ensures a.equity == a.curve[|closes| - 1]
    ensures a.wins == 0
    ensures a == Run(closes, signals, |closes|)
  {
    var position := 0;
    var equity := InitialCapital;
    var equityCurve := [equity];
    var barReturns: seq<real> := [];
    var wins := 0;
    var totalTrades := 0;

    var i := 1;
    while i < |closes|
      invariant 1 <= i <= |closes|
      invariant position == 0 || position == 1
      invariant |equityCurve| == i && equityCurve[0] == InitialCapital
      invariant |barReturns| == i - 1
      invariant equity == equityCurve[|equityCurve| - 1]
      invariant wins == 0 && wins <= totalTrades
      invariant Account(position, equity, equityCurve, barReturns, wins, totalTrades) == Run(closes, signals, i)
    {
      ghost var before := Run(closes, signals, i);
      var dailyReturn := (closes[i] - closes[i - 1]) / closes[i - 1];
      assert dailyReturn == DailyReturn(closes, i);
      if signals[i] == 1 && position == 0 {
        position := 1;
      } else if signals[i] == -1 && position == 1 {
        position := 0;
        totalTrades := totalTrades + 1;
        if equity > equityCurve[|equityCurve| - 1] {
          wins := wins + 1;
        }
      }
      if position == 1 {
        equity := equity * (1.0 + dailyReturn);
        barReturns := barReturns + [dailyReturn];
      } else {
        barReturns := barReturns + [0.0];
      }
      equityCurve := equityCurve + [equity];
      ghost var next := Step(before, closes, signals, i);
      assert next.position == position && next.trades == totalTrades && next.wins == wins;
      assert next.equity == equity && next.curve == equityCurve && next.barReturns == barReturns;
      assert Run(closes, signals, i + 1) == next;
      i := i + 1;
    }
    a := Account(position, equity, equityCurve, barReturns, wins, totalTrades);
  }

  /** The drawdown loop of calculateMetrics: walk the curve keeping the
      running peak and the largest percentage fall below it. */
  method MaxDrawdownOf(equityCurve: seq<real>) returns (maxDrawdown: real)
    requires 0 < |equityCurve| && 0.0 < equityCurve[0]
    ensures 0.0 <= maxDrawdown
    ensures forall k :: 0 <= k < |equityCurve| ==> Drawdown(equityCurve, k) <= maxDrawdown
    ensures maxDrawdown == MaxDrawdown(equityCurve, |equityCurve|)
  {
    maxDrawdown := 0.0;
    var peak := equityCurve[0];
    var k := 0;
    while k < |equityCurve|
      invariant 0 <= k <= |equityCurve|
      invariant peak == RunningPeak(equityCurve, if k == 0 then 0 else k - 1)
      invariant maxDrawdown == MaxDrawdown(equityCurve, k)
    {
      var value := equityCurve[k];
      if value > peak {
        peak := value;
      }
      assert peak == RunningPeak(equityCurve, k);
      var drawdown := (peak - value) / peak * 100.0;
      assert drawdown == Drawdown(equityCurve, k);
      assert MaxDrawdown(equityCurve, k + 1) == if drawdown > maxDrawdown then drawdown else maxDrawdown;
      if drawdown > maxDrawdown {
        maxDrawdown := drawdown;
      }
      k := k + 1;
    }
  }

  /** calculateMetrics. */
  method CalculateMetrics(closes: seq<real>, signals: seq<int>, sqrt: real -> real) returns (m: Metrics)
    requires 1 <= |closes| == |signals| && NonzeroDivisors(closes) && IsSqrt(sqrt)
    ensures |m.equityCurve| == |closes| && m.equityCurve[0] == InitialCapital
    ensures m.equityCurve == Run(closes, signals, |closes|).curve
    ensures m.totalReturn == (m.equityCurve[|closes| - 1] - InitialCapital) / InitialCapital * 100.0
    ensures m.sharpeRatio == SharpeRatio(Run(closes, signals, |closes|).barReturns, sqrt)
    ensures 0.0 <= m.maxDrawdown && m.maxDrawdown == MaxDrawdown(m.equityCurve, |closes|)
    ensures m.winRate == 0.0
  {
    var account := SimulateBars(closes, signals);
    var totalReturn := (account.equity - InitialCapital) / InitialCapital * 100.0;
    var sharpeRatio := SharpeRatio(account.barReturns, sqrt);
    var maxDrawdown := MaxDrawdownOf(account.curve);
    var winRate := if account.trades > 0 then account.wins as real / account.trades as real * 100.0 else 0.0;
    m := Metrics(totalReturn, sharpeRatio, maxDrawdown, winRate, account.curve);
  }

  // ---------------------------------------------------------------------
  // Properties of the simulation

  /** Later bars only append: the first k points of the final curve and the
      first k-1 recorded returns are those of the run cut off after k bars. */
  lemma {:induction false} RunPrefix(closes: seq<real>, signals: seq<int>, k: int, n: int)
    requires 1 <= k <= n <= |closes| == |signals| && NonzeroDivisors(closes)
    ensures Run(closes, signals, n).curve[..k] == Run(closes, signals, k).curve
    ensures Run(closes, signals, n).barReturns[..k - 1] == Run(closes, signals, k).barReturns
  {
    if k < n {
      RunPrefix(closes, signals, k, n - 1);
      var prev := Run(closes, signals, n - 1);
      var cur := Run(closes, signals, n);
      assert cur.curve[..k] == prev.curve[..k];
      assert cur.barReturns[..k - 1] == prev.barReturns[..k - 1];
    } else {
      assert Run(closes, signals, n).curve[..k] == Run(closes, signals, n).curve;
      assert Run(closes, signals, n).barReturns[..k - 1] == Run(closes, signals, n).barReturns;
    }
  }

  /** The position state machine: on bar i a buy signal leaves the account
      long and a sell signal leaves it flat, whatever it was before, and any
      other signal keeps the position. A trade is counted exactly when a sell
      closes a long position, and the win count never moves. */
  lemma PositionTransition(closes: seq<real>, signals: seq<int>, i: int)
    requires 1 <= i < |closes| == |signals| && NonzeroDivisors(closes)
    ensures Run(closes, signals, i + 1).position ==
      (if signals[i] == 1 then 1
       else if signals[i] == -1 then 0
       else Run(closes, signals, i).position)
    ensures Run(closes, signals, i + 1).trades == Run(closes, signals, i).trades +
      (if signals[i] == -1 && Run(closes, signals, i).position == 1 then 1 else 0)
    ensures Run(closes, signals, i + 1).wins == Run(closes, signals, i).wins
  {
    assert Run(closes, signals, i + 1) == Step(Run(closes, signals, i), closes, signals, i);
  }

  /** A run whose signal on bar 1 is not a buy records 0 as its first
      return. */
  lemma FlatFirstBar(closes: seq<real>, signals: seq<int>)
    requires 2 <= |closes| == |signals| && NonzeroDivisors(closes)
    requires signals[1] != 1
    ensures Run(closes, signals, |closes|).barReturns[0] == 0.0
  {
    RunPrefix(closes, signals, 2, |closes|);
    assert Run(closes, signals, 2).barReturns == [0.0];
  }

  /** What bar i (1 <= i) contributes to the final curve and returns: with the
      position flat after the bar's signal, equity is unchanged and the
      recorded return is 0; with it long, equity compounds by the bar's
      return, which is the one recorded. */
  lemma BarOutcome(closes: seq<real>, signals: seq<int>, i: int)
    requires 1 <= i < |closes| == |signals| && NonzeroDivisors(closes)
    ensures var final := Run(closes, signals, |closes|);
      var position := Run(closes, signals, i + 1).position;
      (position == 0 ==> final.curve[i] == final.curve[i - 1] && final.barReturns[i - 1] == 0.0) &&
      (position == 1 ==> final.curve[i] == final.curve[i - 1] * (1.0 + DailyReturn(closes, i))
                         && final.barReturns[i - 1] == DailyReturn(closes, i))
  {
    var n := |closes|;
    RunPrefix(closes, signals, i + 1, n);
    var final := Run(closes, signals, n);
    var cut := Run(closes, signals, i + 1);
    assert final.curve[i] == cut.curve[i] && final.curve[i - 1] == cut.curve[i - 1];
    assert final.barReturns[i - 1] == cut.barReturns[i - 1];
  }

  /** Without a buy signal on bars 1 .. n-1 (bar 0's signal is never read)
      the account never leaves the flat position during them: every point of
      the curve is the initial capital and every recorded return is 0. */
  lemma {:induction false} NoBuyStaysFlat(closes: seq<real>, signals: seq<int>, n: int)
    requires 1 <= n <= |closes| == |signals| && NonzeroDivisors(closes)
    requires forall k :: 1 <= k < n ==> signals[k] != 1
    ensures Run(closes, signals, n).position == 0
    ensures forall k :: 0 <= k < n ==> Run(closes, signals, n).curve[k] == InitialCapital
    ensures forall k :: 0 <= k < n - 1 ==> Run(closes, signals, n).barReturns[k] == 0.0
  {
    if n > 1 {
      NoBuyStaysFlat(closes, signals, n - 1);
    }
  }

  /** A run without a buy signal on any bar it reads stays flat, and reports
      a Sharpe ratio of exactly 0, no drawdown and no return. */
  lemma NoBuyMetrics(closes: seq<real>, signals: seq<int>, sqrt: real -> real)
    requires 1 <= |closes| == |signals| && NonzeroDivisors(closes) && IsSqrt(sqrt)
    requires forall k :: 1 <= k < |signals| ==> signals[k] != 1
    ensures var a := Run(closes, signals, |closes|);
      SharpeRatio(a.barReturns, sqrt) == Finite(0.0) &&
      MaxDrawdown(a.curve, |closes|) == 0.0 &&
      a.equity == InitialCapital
  {
    var n := |closes|;
    NoBuyStaysFlat(closes, signals, n);
    var a := Run(closes, signals, n);
    SharpeZeroWhenAllFlat(a.barReturns, sqrt);
    NonDecreasingNoDrawdown(a.curve);
  }

  /** With a strictly rising, positive price series the equity never falls
      and never drops below the initial capital. */
  lemma {:induction false} RisingPricesRaiseEquity(closes: seq<real>, signals: seq<int>, n: int)
    requires 1 <= n <= |closes| == |signals|
    requires StrictlyRising(closes) && 0.0 < closes[0]
    ensures NonzeroDivisors(closes)
    ensures InitialCapital <= Run(closes, signals, n).equity
    ensures forall k :: 1 <= k < n ==> Run(closes, signals, n).curve[k - 1] <= Run(closes, signals, n).curve[k]
  {
    forall k | 0 <= k < |closes| - 1
      ensures closes[k] != 0.0
    {
      if k > 0 {
        assert closes[0] < closes[k];
      }
    }
    if n > 1 {
      RisingPricesRaiseEquity(closes, signals, n - 1);
      var prev := Run(closes, signals, n - 1);
      var r := DailyReturn(closes, n - 1);
      assert closes[n - 2] < closes[n - 1];
      if n - 2 > 0 {
        assert closes[0] < closes[n - 2];
      }
      assert 0.0 < r;
      ProductPositive(prev.equity, r, prev.equity * r);
      assert prev.equity <= prev.equity * (1.0 + r);
    }
  }

  /** On a strictly rising, positive price series the maximum drawdown is 0,
      whatever the signals. */
  lemma RisingPricesNoDrawdown(closes: seq<real>, signals: seq<int>)
    requires 1 <= |closes| == |signals|
    requires StrictlyRising(closes) && 0.0 < closes[0]
    ensures NonzeroDivisors(closes)
    ensures MaxDrawdown(Run(closes, signals, |closes|).curve, |closes|) == 0.0
  {
    RisingPricesRaiseEquity(closes, signals, |closes|);
    NonDecreasingNoDrawdown(Run(closes, signals, |closes|).curve);
  }

  // ---------------------------------------------------------------------
  // Properties of the drawdown

  /** The running peak is a point of the curve and never decreases. */
  lemma {:induction false} RunningPeakAttained(curve: seq<real>, k: int)
    requires 0 <= k < |curve|
    ensures exists j :: 0 <= j <= k && curve[j] == RunningPeak(curve, k)
    ensures 0 < k ==> RunningPeak(curve, k - 1) <= RunningPeak(curve, k)
  {
    if k == 0 {
      assert curve[0] == RunningPeak(curve, 0);
    } else {
      RunningPeakAttained(curve, k - 1);
      var q := RunningPeak(curve, k - 1);
      if curve[k] > q {
        assert curve[k] == RunningPeak(curve, k);
      } else {
        var j :| 0 <= j <= k - 1 && curve[j] == q;
        assert curve[j] == RunningPeak(curve, k);
      }
    }
  }

  /** A drawdown is never negative, and stays below 100% while the equity is
      positive. */
  lemma DrawdownBounds(curve: seq<real>, k: int)
    requires 0 <= k < |curve| && 0.0 < curve[0]
    ensures 0.0 <= Drawdown(curve, k)
    ensures 0.0 < curve[k] ==> Drawdown(curve, k) < 100.0
  {
    var p := RunningPeak(curve, k);
    FractionBounds(p - curve[k], p);
  }

  /** A ratio a/b with 0 <= a and 0 < b is non-negative, and below 1 when a < b. */
  lemma FractionBounds(a: real, b: real)
    requires 0.0 < b && 0.0 <= a
    ensures 0.0 <= a / b
    ensures a < b ==> a / b < 1.0
  {
    if a < b {
      FractionBelowOne(a, b);
    }
  }

  lemma FractionBelowOne(a: real, b: real)
    requires 0.0 < b && 0.0 <= a < b
    ensures a / b < 1.0
  {
    assert 0.0 < (b - a) / b;
    assert (b - a) / b == b / b - a / b;
  }

  /** The maximum drawdown is 0 or the drawdown of some point. */
  lemma {:induction false} MaxDrawdownAttained(curve: seq<real>, n: int)
    requires 0 <= n <= |curve| && 0 < |curve| && 0.0 < curve[0]
    ensures MaxDrawdown(curve, n) == 0.0 || exists k :: 0 <= k < n && MaxDrawdown(curve, n) == Drawdown(curve, k)
  {
    if n > 0 {
      MaxDrawdownAttained(curve, n - 1);
    }
  }

  /** A curve that never falls has no drawdown. */
  lemma NonDecreasingNoDrawdown(curve: seq<real>)
    requires 0 < |curve| && 0.0 < curve[0]
    requires forall k :: 1 <= k < |curve| ==> curve[k - 1] <= curve[k]
    ensures MaxDrawdown(curve, |curve|) == 0.0
  {
    PeakOfNonDecreasing(curve, |curve| - 1);
    forall j | 0 <= j < |curve|
      ensures Drawdown(curve, j) == 0.0
    {
      assert RunningPeak(curve, j) == curve[j];
    }
    MaxDrawdownZero(curve, |curve|);
  }

  lemma {:induction false} PeakOfNonDecreasing(curve: seq<real>, k: int)
    requires 0 <= k < |curve|
    requires forall j :: 1 <= j < |curve| ==> curve[j - 1] <= curve[j]
    ensures forall j :: 0 <= j <= k ==> RunningPeak(curve, j) == curve[j]
  {
    if k > 0 {
      PeakOfNonDecreasing(curve, k - 1);
    }
  }

  lemma {:induction false} MaxDrawdownZero(curve: seq<real>, n: int)
    requires 0 <= n <= |curve| && 0 < |curve| && 0.0 < curve[0]
    requires forall j :: 0 <= j < n ==> Drawdown(curve, j) == 0.0
    ensures MaxDrawdown(curve, n) == 0.0
  {
    if n > 0 {
      MaxDrawdownZero(curve, n - 1);
    }
  }

  // ---------------------------------------------------------------------
  // Properties of the Sharpe ratio

  /** When the first recorded return is 0 the Sharpe ratio is finite: zero
      deviation forces every return, hence the mean, to 0 (the contract of
      `SharpeRatio`). */
  lemma SharpeFiniteWhenFirstFlat(barReturns: seq<real>, sqrt: real -> real)
    requires IsSqrt(sqrt)
    requires 0 < |barReturns| && barReturns[0] == 0.0
    ensures SharpeRatio(barReturns, sqrt).Finite?
  {
  }

  /** Returns that are all 0 (a run that never holds a position) give a
      Sharpe ratio of exactly 0. */
  lemma SharpeZeroWhenAllFlat(barReturns: seq<real>, sqrt: real -> real)
    requires IsSqrt(sqrt)
    requires forall k :: 0 <= k < |barReturns| ==> barReturns[k] == 0.0
    ensures SharpeRatio(barReturns, sqrt) == Finite(0.0)
  {
    if |barReturns| > 0 {
      MeanConstant(barReturns, 0.0);
      var stdDev := sqrt(PopulationVariance(barReturns));
      if stdDev != 0.0 {
        assert 0.0 / stdDev == 0.0;
      }
    }
  }

  /** Returns that are all the same non-zero value have zero deviation, and
      the ratio is infinite with the sign of that value. */
  lemma SharpeInfiniteWhenConstant(barReturns: seq<real>, sqrt: real -> real, c: real)
    requires IsSqrt(sqrt)
    requires 0 < |barReturns| && c != 0.0
    requires forall k :: 0 <= k < |barReturns| ==> barReturns[k] == c
    ensures SharpeRatio(barReturns, sqrt) == Infinite(c < 0.0)
  {
    MeanConstant(barReturns, c);
    PopulationVarianceZero(barReturns);
    SqrtZero(sqrt, PopulationVariance(barReturns));
  }
}
