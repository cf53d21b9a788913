/** The backtest request handler: validate the request, pick the strategy's
    signal generator, run the simulation and label the equity curve for the
    chart. */
module Backtest {
  import opened Optional
  import opened Stats
  import Indicators
  import Strategies
  import opened Simulator

  /** One OHLC bar with its price fields already converted to numbers. An
      empty `date` stands for a missing or empty date. */
  datatype Bar = Bar(date: string, open: real, high: real, low: real, close: real)

  /** The three strategies a request can name. */
  datatype Strategy = Momentum | MeanReversion | Breakout

  /** One point of the equity curve as sent to the chart. */
  datatype CurvePoint = CurvePoint(date: string, equity: real)

  /** The successful response: the four metrics and the labelled curve. */
  datatype Report = Report(
    totalReturn: real,
    sharpeRatio: Ratio,
    maxDrawdown: real,
    winRate: real,
    equityCurve: seq<CurvePoint>)

  const InvalidDataFormat: string := "Invalid data format"
  const InvalidStrategy: string := "Invalid strategy"

  // ---------------------------------------------------------------------
  // Strategy names

  /** The identifier a request uses for each strategy. */
  function StrategyName(s: Strategy): string
  {
    match s
    case Momentum => "momentum"
    case MeanReversion => "meanReversion"
    case Breakout => "breakout"
  }

  /** The strategy switch: exactly the three identifiers are recognised, and
      recognising is the inverse of naming. */
  function ParseStrategy(name: string): (s: Option<Strategy>)
    ensures s.Some? ==> StrategyName(s.value) == name
    ensures s.None? ==> forall t: Strategy :: StrategyName(t) != name
  {
    if name == "momentum" then Some(Momentum)
    else if name == "meanReversion" then Some(MeanReversion)
    else if name == "breakout" then Some(Breakout)
    else None
  }

  /** Naming then parsing gives back the strategy. */
  lemma ParseStrategyName(s: Strategy)
    ensures ParseStrategy(StrategyName(s)) == Some(s)
  {
  }

  // ---------------------------------------------------------------------
  // Columns of the bar data

  function Closes(bars: seq<Bar>): (closes: seq<real>)
    ensures |closes| == |bars|
    ensures forall i :: 0 <= i < |bars| ==> closes[i] == bars[i].close
  {
    seq(|bars|, i requires 0 <= i < |bars| => bars[i].close)
  }

  function Highs(bars: seq<Bar>): (highs: seq<real>)
    ensures |highs| == |bars|
    ensures forall i :: 0 <= i < |bars| ==> highs[i] == bars[i].high
  {
    seq(|bars|, i requires 0 <= i < |bars| => bars[i].high)
  }

  function Lows(bars: seq<Bar>): (lows: seq<real>)
    ensures |lows| == |bars|
    ensures forall i :: 0 <= i < |bars| ==> lows[i] == bars[i].low
  {
    seq(|bars|, i requires 0 <= i < |bars| => bars[i].low)
  }

  function Dates(bars: seq<Bar>): (dates: seq<string>)
    ensures |dates| == |bars|
    ensures forall i :: 0 <= i < |bars| ==> dates[i] == bars[i].date
  {
    seq(|bars|, i requires 0 <= i < |bars| => bars[i].date)
  }

  /** The signal series of the chosen strategy: one signal per bar, each
      -1, 0 or +1, and 0 throughout the shortest warm-up (nine bars). */
  function Signals(s: Strategy, bars: seq<Bar>, sqrt: real -> real): (signals: seq<int>)
    requires IsSqrt(sqrt)
    ensures |signals| == |bars|
    ensures forall i :: 0 <= i < |bars| ==> Strategies.IsSignal(signals[i])
    ensures forall i :: 0 <= i < |bars| && i < Strategies.MomentumPeriod - 1 ==> signals[i] == 0
  {
    match s
    case Momentum => Strategies.Momentum(Closes(bars))
    case MeanReversion => Strategies.MeanReversion(Closes(bars), sqrt)
    case Breakout => Strategies.Breakout(Highs(bars), Lows(bars), Closes(bars))
  }

  // ---------------------------------------------------------------------
  // Curve labels

  predicate IsDigit(c: char)
  {
    '0' <= c <= '9'
  }

  /** The number a string of decimal digits denotes. */
  function DecimalValue(s: string): nat
    requires forall k :: 0 <= k < |s| ==> IsDigit(s[k])
  {
    if |s| == 0 then 0
    else DecimalValue(s[..|s| - 1]) * 10 + DigitValue(s[|s| - 1])
  }

  function DigitValue(c: char): nat
    requires IsDigit(c)
  {
    c as int - '0' as int
  }

  /** The decimal rendering of a natural number, as a template literal
      prints it: digits only, no leading zero, and denoting `n`. */
  function DecimalString(n: nat): (s: string)
    ensures 0 < |s|
    ensures forall k :: 0 <= k < |s| ==> IsDigit(s[k])
    ensures s[0] == '0' ==> s == "0"
    ensures DecimalValue(s) == n
  {
    if n < 10 then ["0123456789"[n]]
    else
      var prefix := DecimalString(n / 10);
      var s := prefix + ["0123456789"[n % 10]];
      assert s[..|s| - 1] == prefix;
      s
  }

  /** The label of curve point `i`: its date, or "Day i" when the date is
      empty. */
  function Label(date: string, i: nat): (text: string)
    ensures date != "" ==> text == date
    ensures date == "" ==>
      (4 <= |text| && text[..4] == "Day "
       && (forall k :: 4 <= k < |text| ==> IsDigit(text[k]))
       && DecimalValue(text[4..]) == i)
    ensures date == "" ==> text == "Day " + DecimalString(i)
  {
    if date != "" then date
    else
      var digits := DecimalString(i);
      var text := "Day " + digits;
      assert text[4..] == digits;
      text
  }

  /** The chart's curve: one point per equity value, in order, carrying its
      bar's date or a "Day i" label. Labels are never empty. */
  function FormatCurve(curve: seq<real>, dates: seq<string>): (points: seq<CurvePoint>)
    requires |dates| == |curve|
    ensures |points| == |curve|
    ensures forall i :: 0 <= i < |curve| ==>
      points[i].equity == curve[i] && points[i].date == Label(dates[i], i) && points[i].date != ""
  {
    seq(|curve|, i requires 0 <= i < |curve| => CurvePoint(Label(dates[i], i), curve[i]))
  }

  // ---------------------------------------------------------------------
  // The handler

  /** The data check: present, a sequence, and not empty. */
  predicate ValidData(data: Option<seq<Bar>>)
  {
    data.Some? && 0 < |data.value|
  }

  /** The strategy switch on an identifier that may be absent. */
  function SelectStrategy(name: Option<string>): (s: Option<Strategy>)
    ensures s.Some? <==> name.Some? && ParseStrategy(name.value).Some?
    ensures s.Some? ==> StrategyName(s.value) == name.value
  {
    if name.None? then None else ParseStrategy(name.value)
  }

  /** Every strategy stays flat on bar 1, so the first recorded return is 0. */
  lemma FirstReturnFlat(s: Strategy, bars: seq<Bar>, sqrt: real -> real)
    requires IsSqrt(sqrt)
    requires 2 <= |bars| && NonzeroDivisors(Closes(bars))
    ensures Run(Closes(bars), Signals(s, bars, sqrt), |bars|).barReturns[0] == 0.0
  {
    var signals := Signals(s, bars, sqrt);
    assert signals[1] == 0;
    FlatFirstBar(Closes(bars), signals);
  }

  /** Under momentum, after the warm-up the account is long after bar i
      exactly when bar i's close is above the mean of the last 10 closes: a
      long position is closed on the first bar at or below that mean. */
  lemma MomentumPosition(closes: seq<real>, i: int)
    requires Strategies.MomentumPeriod - 1 <= i < |closes| && NonzeroDivisors(closes)
    ensures Run(closes, Strategies.Momentum(closes), i + 1).position == 1 <==>
      closes[i] > Mean(Indicators.Window(closes, i, Strategies.MomentumPeriod))
  {
    PositionTransition(closes, Strategies.Momentum(closes), i);
  }

  /** For every strategy the reported Sharpe ratio is a finite number. */
  lemma SharpeFinite(s: Strategy, bars: seq<Bar>, sqrt: real -> real)
    requires IsSqrt(sqrt)
    requires 1 <= |bars| && NonzeroDivisors(Closes(bars))
    ensures SharpeRatio(Run(Closes(bars), Signals(s, bars, sqrt), |bars|).barReturns, sqrt).Finite?
  {
    if 2 <= |bars| {
      FirstReturnFlat(s, bars, sqrt);
      SharpeFiniteWhenFirstFlat(Run(Closes(bars), Signals(s, bars, sqrt), |bars|).barReturns, sqrt);
    }
  }

  /** Handle one backtest request: reject missing or empty data first, then
      an unknown strategy; otherwise compute the metrics of the strategy's
      signals and label the equity curve. */
  method RunBacktest(data: Option<seq<Bar>>, strategy: Option<string>, sqrt: real -> real)
    returns (r: Result<Report, string>)
    requires IsSqrt(sqrt)
    requires ValidData(data) && SelectStrategy(strategy).Some? ==> NonzeroDivisors(Closes(data.value))
    ensures !ValidData(data) ==> r == Err(InvalidDataFormat)
    ensures ValidData(data) && SelectStrategy(strategy).None? ==> r == Err(InvalidStrategy)
    ensures r.Ok? <==> ValidData(data) && SelectStrategy(strategy).Some?
    ensures r.Ok? ==>
      var bars := data.value;
      var run := Run(Closes(bars), Signals(SelectStrategy(strategy).value, bars, sqrt), |bars|);
      var report := r.value;
      |report.equityCurve| == |bars|
      && report.equityCurve == FormatCurve(run.curve, Dates(bars))
      && report.equityCurve[0].equity == InitialCapital
      && report.totalReturn == (run.equity - InitialCapital) / InitialCapital * 100.0
      && report.sharpeRatio == SharpeRatio(run.barReturns, sqrt)
      && report.sharpeRatio.Finite?
      && report.maxDrawdown == MaxDrawdown(run.curve, |bars|)
      && 0.0 <= report.maxDrawdown
      && report.winRate == 0.0
  {
    if !ValidData(data) {
      return Err(InvalidDataFormat);
    }
    var bars := data.value;
    var s := SelectStrategy(strategy);
    if s.None? {
      return Err(InvalidStrategy);
    }
    var signals := Signals(s.value, bars, sqrt);
    var m := CalculateMetrics(Closes(bars), signals, sqrt);
    SharpeFinite(s.value, bars, sqrt);
    var points := FormatCurve(m.equityCurve, Dates(bars));
    r := Ok(Report(m.totalReturn, m.sharpeRatio, m.maxDrawdown, m.winRate, points));
  }

  // ---------------------------------------------------------------------
  // A worked run

  /** The eleven closes of the reference momentum scenario. */
  const ScenarioCloses: seq<real> :=
    [100.0, 102.0, 104.0, 103.0, 105.0, 107.0, 109.0, 108.0, 110.0, 112.0, 115.0]

  /** The mean of the first ten reference closes is 106. */
  lemma ScenarioFirstMean()
    ensures Mean(Indicators.Window(ScenarioCloses, 9, 10)) == 106.0
  {
    var closes := ScenarioCloses;
    assert Indicators.Window(closes, 9, 10) == closes[0..10];
    assert Sum(closes[0..1]) == 100.0;
    assert Sum(closes[0..2]) == 202.0 by { assert closes[0..2][..1] == closes[0..1]; }
    assert Sum(closes[0..3]) == 306.0 by { assert closes[0..3][..2] == closes[0..2]; }
    assert Sum(closes[0..4]) == 409.0 by { assert closes[0..4][..3] == closes[0..3]; }
    assert Sum(closes[0..5]) == 514.0 by { assert closes[0..5][..4] == closes[0..4]; }
    assert Sum(closes[0..6]) == 621.0 by { assert closes[0..6][..5] == closes[0..5]; }
    assert Sum(closes[0..7]) == 730.0 by { assert closes[0..7][..6] == closes[0..6]; }
    assert Sum(closes[0..8]) == 838.0 by { assert closes[0..8][..7] == closes[0..7]; }
    assert Sum(closes[0..9]) == 948.0 by { assert closes[0..9][..8] == closes[0..8]; }
    assert Sum(closes[0..10]) == 1060.0 by { assert closes[0..10][..9] == closes[0..9]; }
  }

  /** The mean of the last ten reference closes is 107.5. */
  lemma ScenarioSecondMean()
    ensures Mean(Indicators.Window(ScenarioCloses, 10, 10)) == 107.5
  {
    var closes := ScenarioCloses;
    assert Indicators.Window(closes, 10, 10) == closes[1..11];
    assert Sum(closes[1..2]) == 102.0;
    assert Sum(closes[1..3]) == 206.0 by { assert closes[1..3][..1] == closes[1..2]; }
    assert Sum(closes[1..4]) == 309.0 by { assert closes[1..4][..2] == closes[1..3]; }
    assert Sum(closes[1..5]) == 414.0 by { assert closes[1..5][..3] == closes[1..4]; }
    assert Sum(closes[1..6]) == 521.0 by { assert closes[1..6][..4] == closes[1..5]; }
    assert Sum(closes[1..7]) == 630.0 by { assert closes[1..7][..5] == closes[1..6]; }
    assert Sum(closes[1..8]) == 738.0 by { assert closes[1..8][..6] == closes[1..7]; }
    assert Sum(closes[1..9]) == 848.0 by { assert closes[1..9][..7] == closes[1..8]; }
    assert Sum(closes[1..10]) == 960.0 by { assert closes[1..10][..8] == closes[1..9]; }
    assert Sum(closes[1..11]) == 1075.0 by { assert closes[1..11][..9] == closes[1..10]; }
  }

  /** On the reference closes the momentum strategy is flat for nine bars
      and then signals a buy on bars 9 and 10: 112 is above the mean 106 of
      the first ten closes, and 115 above the mean 107.5 of the last ten. */
  lemma MomentumScenarioSignals()
    ensures Strategies.Momentum(ScenarioCloses) == [0, 0, 0, 0, 0, 0, 0, 0, 0, 1, 1]
  {
    ScenarioFirstMean();
    ScenarioSecondMean();
  }

  /** The position the momentum strategy opens on bar 9 of the reference
      closes earns the returns of bars 9 and 10, so the final equity is the
      initial capital times 115/110. */
  lemma MomentumScenarioEquity()
    ensures NonzeroDivisors(ScenarioCloses)
    ensures Run(ScenarioCloses, Strategies.Momentum(ScenarioCloses), 11).equity
      == InitialCapital * (115.0 / 110.0)
  {
    var closes := ScenarioCloses;
    var signals := Strategies.Momentum(closes);
    MomentumScenarioSignals();
    assert signals[9] == 1 && signals[10] == 1;
    NoBuyStaysFlat(closes, signals, 9);
    var r9 := Run(closes, signals, 9);
    assert r9.position == 0 && r9.equity == InitialCapital;
    var r10 := Run(closes, signals, 10);
    assert r10 == Step(r9, closes, signals, 9);
    assert r10.position == 1 && r10.equity == InitialCapital * (1.0 + 2.0 / 110.0);
    assert Run(closes, signals, 11) == Step(r10, closes, signals, 10);
  }
}
