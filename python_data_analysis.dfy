/** my-python-data-tool-main/python-data-analysis.py: a script that adds
    indicator columns to a downloaded price frame and backtests an SMA 20/50
    crossover on it, going long on a crossing up and short on a crossing down. */
module PythonDataAnalysis {
  import opened Series
  import opened Oracles
  import opened Returns
  import opened Indicators
  import opened Backtest

  /** The four numbers behind `performance_metrics`, before they are formatted. */
  datatype Metrics = Metrics(totalStrategyReturn: real, totalBuyHoldReturn: real, sharpeRatio: real, maxDrawdown: real)

  /** Signal: 1.0 where the 20-day SMA is above the 50-day SMA, 0.0 on every
      other bar, including the bars where either average is still missing. */
  function CrossoverSignal(sma20: Column, sma50: Column): (r: seq<real>)
    requires |sma20| == |sma50|
    ensures |r| == |sma20| && Binary(r)
    ensures forall i :: 0 <= i < |r| ==> (r[i] == 1.0 <==> Gt(sma20[i], sma50[i]))
    ensures forall i :: 0 <= i < |r| && (sma20[i].None? || sma50[i].None?) ==> r[i] == 0.0
  {
    Flags(GtMask(sma20, sma50))
  }

  /** Setting the signal to 0.0 and then to 1.0 on the masked bars gives the crossover signal. */
  lemma MaskedSignal(sma20: Column, sma50: Column)
    requires |sma20| == |sma50|
    ensures Masked(Constant(|sma20|, 0.0), GtMask(sma20, sma50), 1.0) == CrossoverSignal(sma20, sma50)
  {
  }

  /** A buy (+1) is a bar where the 20-day SMA gets above the 50-day SMA, a
      sell (-1) a bar where it stops being above. */
  lemma CrossoverPositions(sma20: Column, sma50: Column, i: int)
    requires |sma20| == |sma50| && 0 < i < |sma20|
    ensures Diff(CrossoverSignal(sma20, sma50))[i] == Some(1.0) <==> !Gt(sma20[i - 1], sma50[i - 1]) && Gt(sma20[i], sma50[i])
    ensures Diff(CrossoverSignal(sma20, sma50))[i] == Some(-1.0) <==> Gt(sma20[i - 1], sma50[i - 1]) && !Gt(sma20[i], sma50[i])
  {
    PositionValues(CrossoverSignal(sma20, sma50), i);
  }

  /** `sqrt(252) * mean / std` of the present strategy returns, 0.0 when there
      are none or their deviation is 0. */
  function SharpeRatio(num: Numerics, rs: seq<real>): (r: real)
    ensures rs == [] || num.std(rs) == 0.0 ==> r == 0.0
  {
    if rs != [] && num.std(rs) != 0.0 then num.sqrt(252.0) * Mean(rs) / num.std(rs) else 0.0
  }

  /** With a sound library, the ratio is positive exactly when the mean return is. */
  lemma SharpeSign(num: Numerics, rs: seq<real>)
    requires Sound(num) && num.sqrt(252.0) > 0.0
    ensures SharpeRatio(num, rs) > 0.0 <==> rs != [] && num.std(rs) != 0.0 && Mean(rs) > 0.0
  {
    if rs != [] && num.std(rs) != 0.0 {
      assert num.std(rs) > 0.0;
      QuotientSign(num.sqrt(252.0), Mean(rs), num.std(rs));
    }
  }

  lemma QuotientSign(a: real, m: real, s: real)
    requires a > 0.0 && s > 0.0
    ensures a * m / s > 0.0 <==> m > 0.0
  {
    if m > 0.0 {
      assert a * m > 0.0;
    } else {
      assert a * m <= 0.0;
    }
  }

  /** Lines 139-140: the cumulative value on the last bar, or 0.0 when the
      column is empty or that value is missing. */
  function LastOrZero(c: Column): real
  {
    if c == [] || c[|c| - 1].None? then 0.0 else c[|c| - 1].value
  }

  /** Reading the last bar gives the compounded total exactly when that bar
      has a return. */
  lemma LastOrZeroOfCumulative(c: Column)
    ensures LastOrZero(CumReturns(c)) == if c != [] && c[|c| - 1].Some? then CompoundedTotal(c) else 0.0
  {
    if c != [] && c[|c| - 1].Some? {
      CompoundedTotalIsLastCumulative(c, |c| - 1);
    }
  }

  /** The reported metrics over the strategy and buy-and-hold returns. Each
      total is the compounded return when the last bar has a return, and 0.0
      otherwise (see ReturnsAsWritten: for the script's own columns, always). */
  function BacktestMetrics(num: Numerics, strategy: Column, buyHold: Column): (m: Metrics)
    ensures m.maxDrawdown <= 0.0
    ensures m.maxDrawdown == 0.0 <== MaxDrawdown(DropNa(strategy)).None?
    ensures DropNa(strategy) == [] ==> m.sharpeRatio == 0.0 && m.maxDrawdown == 0.0 && m.totalStrategyReturn == 0.0
    ensures m.totalStrategyReturn == if strategy != [] && strategy[|strategy| - 1].Some? then CompoundedTotal(strategy) else 0.0
    ensures m.totalBuyHoldReturn == if buyHold != [] && buyHold[|buyHold| - 1].Some? then CompoundedTotal(buyHold) else 0.0
  {
    var rs := DropNa(strategy);
    LastOrZeroOfCumulative(strategy);
    LastOrZeroOfCumulative(buyHold);
    Metrics(LastOrZero(CumReturns(strategy)), LastOrZero(CumReturns(buyHold)), SharpeRatio(num, rs), ReportedDrawdown(rs))
  }

  /** The last bar has no next-bar return, so both cumulative columns end in a
      missing value and both totals as written are always 0.0. */
  lemma ReturnsAsWritten(dailyReturn: Column, position: Column)
    requires |dailyReturn| == |position|
    ensures LastOrZero(CumReturns(StrategyReturns(dailyReturn, position))) == 0.0
    ensures LastOrZero(CumReturns(Shift(dailyReturn, -1))) == 0.0
  {
  }

  /** A close that doubles: buy and hold earns 100%, the total as written
      says 0%; CompoundedTotal is the total the script evidently intends. */
  lemma ReturnsAsWrittenMissGain()
    ensures LastOrZero(CumReturns(Shift(PctChange([1.0, 2.0]), -1))) == 0.0
    ensures CompoundedTotal(Shift(PctChange([1.0, 2.0]), -1)) == 1.0
  {
    BuyAndHoldTotal([1.0, 2.0]);
  }

  /** The columns the script adds to its DataFrame, missing ones empty. */
  datatype Columns = Columns(
    dailyReturn: Column, sma20: Column, sma50: Column, rsi: Column,
    ema12: seq<real>, ema26: seq<real>, macd: seq<real>, macdSignal: seq<real>,
    std: Column, upperBand: Column, lowerBand: Column,
    signal: seq<real>, position: Column, strategyReturns: Column, buyAndHoldReturns: Column,
    cumulativeStrategyReturns: Column, cumulativeBuyAndHoldReturns: Column)

  const NoColumns := Columns([], [], [], [], [], [], [], [], [], [], [], [], [], [], [], [], [])

  /** The script's DataFrame: the downloaded closes and the columns the two
      steps add to it. */
  class Frame {
    const close: seq<real>
    var cols: Columns

    /** The downloaded frame, before any column is added. */
    constructor(close: seq<real>)
      ensures this.close == close && cols == NoColumns
    {
      this.close := close;
      cols := NoColumns;
    }

    /** The columns the backtest reads line up with the closes. */
    predicate Aligned()
      reads this
    {
      |cols.dailyReturn| == |close| && |cols.sma20| == |close| && |cols.sma50| == |close|
    }

    /** `calculate_indicators`: the RSI, MACD and Bollinger columns use the
        indicator engine's formulas with windows 14, 12/26/9 and 20 / 2 std. */
    method CalculateIndicators(num: Numerics)
      modifies this
      ensures cols == old(cols).(dailyReturn := PctChange(close),
        sma20 := Sma(close, 20), sma50 := Sma(close, 50), rsi := Rsi(close, 14),
        ema12 := Ema(close, 12), ema26 := Ema(close, 26),
        macd := MacdLine(close, 12, 26), macdSignal := MacdSignal(close, 12, 26, 9),
        std := RollingStd(num, close, 20),
        upperBand := BbUpper(num, close, 20, 2.0), lowerBand := BbLower(num, close, 20, 2.0))
      ensures Aligned()
    {
      var c := cols;
      c := c.(dailyReturn := PctChange(close));
      c := c.(sma20 := Sma(close, 20), sma50 := Sma(close, 50));
      c := c.(rsi := Rsi(close, 14));
      c := c.(ema12 := Ema(close, 12), ema26 := Ema(close, 26));
      c := c.(macd := Minus(c.ema12, c.ema26));
      assert c.macd == MacdLine(close, 12, 26);
      c := c.(macdSignal := Ema(c.macd, 9));
      c := c.(std := RollingStd(num, close, 20));
      c := c.(upperBand := Add(c.sma20, Scale(c.std, 2.0)), lowerBand := Sub(c.sma20, Scale(c.std, 2.0)));
      cols := c;
    }

    /** `backtest_strategy`: the signal, the position, next-bar strategy and
        buy-and-hold returns, their cumulative columns, and the metrics. */
    method BacktestStrategy(num: Numerics) returns (m: Metrics)
      requires Aligned()
      modifies this
      ensures var c := old(cols);
        var signal := CrossoverSignal(c.sma20, c.sma50);
        var strategy := StrategyReturns(c.dailyReturn, Diff(signal));
        var buyHold := Shift(c.dailyReturn, -1);
        cols == c.(signal := signal, position := Diff(signal),
          strategyReturns := strategy, buyAndHoldReturns := buyHold,
          cumulativeStrategyReturns := CumReturns(strategy), cumulativeBuyAndHoldReturns := CumReturns(buyHold)) &&
        m == BacktestMetrics(num, strategy, buyHold)
      ensures m.totalStrategyReturn == 0.0 && m.totalBuyHoldReturn == 0.0
    {
      var c := cols;
      c := c.(signal := Constant(|close|, 0.0));
      c := c.(signal := Masked(c.signal, GtMask(c.sma20, c.sma50), 1.0));
      MaskedSignal(c.sma20, c.sma50);
      c := c.(position := Diff(c.signal));
      c := c.(strategyReturns := Mul(Shift(c.dailyReturn, -1), c.position));
      c := c.(buyAndHoldReturns := Shift(c.dailyReturn, -1));
      c := c.(cumulativeStrategyReturns := CumReturns(c.strategyReturns));
      c := c.(cumulativeBuyAndHoldReturns := CumReturns(c.buyAndHoldReturns));
      var rs := DropNa(c.strategyReturns);
      var sharpe := SharpeRatio(num, rs);
      var maxDrawdown := ReportedDrawdown(rs);
      var totalStrategy := LastOrZero(c.cumulativeStrategyReturns);
      var totalBuyHold := LastOrZero(c.cumulativeBuyAndHoldReturns);
      m := Metrics(totalStrategy, totalBuyHold, sharpe, maxDrawdown);
      ReturnsAsWritten(c.dailyReturn, c.position);
      cols := c;
    }
  }

  /** After both steps, every position is -1, 0 or +1 (missing on the first
      bar), and the strategy earns a nonzero return only on a crossing bar. */
  lemma BacktestPositions(num: Numerics, close: seq<real>, i: int)
    requires 0 <= i < |close|
    ensures var s := CrossoverSignal(Sma(close, 20), Sma(close, 50));
      var sr := StrategyReturns(PctChange(close), Diff(s));
      (Diff(s)[i].None? <==> i == 0) &&
      (i > 0 ==> Diff(s)[i] == Some(-1.0) || Diff(s)[i] == Some(0.0) || Diff(s)[i] == Some(1.0)) &&
      (sr[i].Some? && sr[i].value != 0.0 ==> Diff(s)[i] == Some(1.0) || Diff(s)[i] == Some(-1.0)) &&
      sr[|close| - 1].None?
  {
    var s := CrossoverSignal(Sma(close, 20), Sma(close, 50));
    PositionValues(s, i);
    StrategyReturnsAt(PctChange(close), s, i);
    StrategyReturnsAt(PctChange(close), s, |close| - 1);
  }
}
