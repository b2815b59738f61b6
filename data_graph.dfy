/** my-python-data-tool-main/data-graph.py: the same backtest as
    python-data-analysis.py, long only, with the crossover signal switched
    off while the RSI is above 70, and with no fallbacks in its metrics. */
module DataGraph {
  import opened Series
  import opened Oracles
  import opened Returns
  import opened Indicators
  import opened Backtest

  /** The four numbers behind `performance_metrics`, before they are
      formatted; a missing one is printed as `nan`. */
  datatype Metrics = Metrics(totalStrategyReturn: Option<real>, totalBuyHoldReturn: Option<real>, sharpeRatio: Option<real>, maxDrawdown: Option<real>)

  /** The RSI level above which the signal is filtered out. */
  const Overbought := 70.0

  /** `c > t` element-wise; false where c is missing. */
  function AboveMask(c: Column, t: real): (m: seq<bool>)
    ensures |m| == |c|
  {
    seq(|c|, i requires 0 <= i < |c| => Gt(c[i], Some(t)))
  }

  /** Signal: 1.0 where the 20-day SMA is above the 50-day SMA and the RSI is
      not above 70 (a missing RSI does not filter), 0.0 on every other bar. */
  function GatedSignal(sma20: Column, sma50: Column, rsi: Column): (r: seq<real>)
    requires |sma20| == |sma50| == |rsi|
    ensures |r| == |sma20| && Binary(r)
    ensures forall i :: 0 <= i < |r| ==> (r[i] == 1.0 <==> Gt(sma20[i], sma50[i]) && !Gt(rsi[i], Some(Overbought)))
    ensures forall i :: 0 <= i < |r| && Gt(rsi[i], Some(Overbought)) ==> r[i] == 0.0
  {
    seq(|sma20|, i requires 0 <= i < |sma20| =>
      if Gt(sma20[i], sma50[i]) && !Gt(rsi[i], Some(Overbought)) then 1.0 else 0.0)
  }

  /** The crossover flags, then 0.0 written over the overbought bars, give the gated signal. */
  lemma MaskedSignal(sma20: Column, sma50: Column, rsi: Column)
    requires |sma20| == |sma50| == |rsi|
    ensures Masked(Flags(GtMask(sma20, sma50)), AboveMask(rsi, Overbought), 0.0) == GatedSignal(sma20, sma50, rsi)
  {
  }

  /** Successive nonzero positions alternate between a buy and a sell. */
  lemma GatedPositionsAlternate(sma20: Column, sma50: Column, rsi: Column, i: int, j: int)
    requires |sma20| == |sma50| == |rsi| && 0 < i < j < |sma20|
    requires var p := Diff(GatedSignal(sma20, sma50, rsi));
      p[i] != Some(0.0) && p[j] != Some(0.0) && forall k :: i < k < j ==> p[k] == Some(0.0)
    ensures var p := Diff(GatedSignal(sma20, sma50, rsi));
      (p[i] == Some(1.0) || p[i] == Some(-1.0)) && p[j].value == -p[i].value
  {
    PositionsAlternate(GatedSignal(sma20, sma50, rsi), i, j);
  }

  /** `sqrt(252) * mean / std` without a guard: missing (nan or inf in the
      script) when there is no return or the deviation is 0. */
  function SharpeRatio(num: Numerics, rs: seq<real>): (r: Option<real>)
    ensures r.None? <==> rs == [] || num.std(rs) == 0.0
  {
    if rs == [] || num.std(rs) == 0.0 then None else Some(num.sqrt(252.0) * Mean(rs) / num.std(rs))
  }

  /** Lines 116-117: the cumulative value on the last bar. */
  function LastValue(c: Column): Option<real>
    requires |c| > 0
  {
    c[|c| - 1]
  }

  /** Reading the last bar gives the compounded total when that bar has a
      return, and is missing otherwise. */
  lemma LastValueOfCumulative(c: Column)
    requires |c| > 0
    ensures LastValue(CumReturns(c)) == if c[|c| - 1].Some? then Some(CompoundedTotal(c)) else None
  {
    if c[|c| - 1].Some? {
      CompoundedTotalIsLastCumulative(c, |c| - 1);
    }
  }

  /** The reported metrics over the strategy and buy-and-hold returns. Each
      total is the compounded return when the last bar has a return, and
      missing otherwise (see ReturnsAsWritten: for the script's own columns,
      always); `iloc[-1]` of an empty column raises. */
  function BacktestMetrics(num: Numerics, strategy: Column, buyHold: Column): (m: Metrics)
    requires |strategy| > 0 && |buyHold| > 0
    ensures m.maxDrawdown.Some? ==> m.maxDrawdown.value <= 0.0
    ensures m.maxDrawdown.None? <==> MaxDrawdown(DropNa(strategy)).None?
    ensures DropNa(strategy) == [] ==> m.sharpeRatio.None? && m.maxDrawdown.None? && m.totalStrategyReturn.None?
    ensures m.totalStrategyReturn == if strategy[|strategy| - 1].Some? then Some(CompoundedTotal(strategy)) else None
    ensures m.totalBuyHoldReturn == if buyHold[|buyHold| - 1].Some? then Some(CompoundedTotal(buyHold)) else None
  {
    var rs := DropNa(strategy);
    MaxDrawdownAtMostZero(rs);
    LastValueOfCumulative(strategy);
    LastValueOfCumulative(buyHold);
    Metrics(LastValue(CumReturns(strategy)), LastValue(CumReturns(buyHold)), SharpeRatio(num, rs), MaxDrawdown(rs))
  }

  /** The last bar has no next-bar return, so both totals as written are
      always missing, printed as `nan%`. */
  lemma ReturnsAsWritten(dailyReturn: Column, position: Column)
    requires |dailyReturn| == |position| && |dailyReturn| > 0
    ensures LastValue(CumReturns(StrategyReturns(dailyReturn, BuyBars(position)))).None?
    ensures LastValue(CumReturns(Shift(dailyReturn, -1))).None?
  {
  }

  /** A close that doubles: buy and hold earns 100%, the total as written is
      missing; CompoundedTotal is the total the script evidently intends. */
  lemma ReturnsAsWrittenMissGain()
    ensures LastValue(CumReturns(Shift(PctChange([1.0, 2.0]), -1))).None?
    ensures CompoundedTotal(Shift(PctChange([1.0, 2.0]), -1)) == 1.0
  {
    BuyAndHoldTotal([1.0, 2.0]);
  }

  /** The columns the script adds to its DataFrame, missing ones empty. */
  datatype Columns = Columns(
    dailyReturn: Column, sma20: Column, sma50: Column, rsi: Column,
    ema12: seq<real>, ema26: seq<real>, macd: seq<real>, macdSignal: seq<real>,
    signal: seq<real>, position: Column, strategyReturns: Column, buyAndHoldReturns: Column,
    cumulativeStrategyReturns: Column, cumulativeBuyAndHoldReturns: Column)

  const NoColumns := Columns([], [], [], [], [], [], [], [], [], [], [], [], [], [])

  /** The script's DataFrame: the downloaded closes and the columns the two
      steps add to it. */
  class Frame {
    const close: seq<real>
    var cols: Columns

    /** The downloaded frame, before any column is added. */
    constructor(close: seq<real>)
      ensures this.close == close && cols == NoColumns
    {
      this.close := close;
      cols := NoColumns;
    }

    /** The columns the backtest reads line up with the closes. */
    predicate Aligned()
      reads this
    {
      |cols.dailyReturn| == |close| && |cols.sma20| == |close| && |cols.sma50| == |close| && |cols.rsi| == |close|
    }

    /** `calculate_indicators`: the RSI and MACD columns use the indicator
        engine's formulas with its default windows 14 and 12/26/9. */
    method CalculateIndicators()
      modifies this
      ensures cols == old(cols).(dailyReturn := PctChange(close),
        sma20 := Sma(close, 20), sma50 := Sma(close, 50), rsi := Rsi(close, 14),
        ema12 := Ema(close, 12), ema26 := Ema(close, 26),
        macd := MacdLine(close, 12, 26), macdSignal := MacdSignal(close, 12, 26, 9))
      ensures Aligned()
    {
      var c := cols;
      c := c.(dailyReturn := PctChange(close));
      c := c.(sma20 := Sma(close, 20), sma50 := Sma(close, 50));
      c := c.(rsi := Rsi(close, 14));
      c := c.(ema12 := Ema(close, 12), ema26 := Ema(close, 26));
      c := c.(macd := Minus(c.ema12, c.ema26));
      assert c.macd == MacdLine(close, 12, 26);
      c := c.(macdSignal := Ema(c.macd, 9));
      cols := c;
    }

    /** `backtest_strategy`: the gated signal, the position, long-only and
        buy-and-hold next-bar returns, their cumulative columns, and the metrics.
        An empty frame makes the script's totals raise. */
    method BacktestStrategy(num: Numerics) returns (m: Metrics)
      requires Aligned() && |close| > 0
      modifies this
      ensures var c := old(cols);
        var signal := GatedSignal(c.sma20, c.sma50, c.rsi);
        var strategy := StrategyReturns(c.dailyReturn, BuyBars(Diff(signal)));
        var buyHold := Shift(c.dailyReturn, -1);
        cols == c.(signal := signal, position := Diff(signal),
          strategyReturns := strategy, buyAndHoldReturns := buyHold,
          cumulativeStrategyReturns := CumReturns(strategy), cumulativeBuyAndHoldReturns := CumReturns(buyHold)) &&
        m == BacktestMetrics(num, strategy, buyHold)
      ensures m.totalStrategyReturn.None? && m.totalBuyHoldReturn.None?
    {
      var c := cols;
      c := c.(signal := Constant(|close|, 0.0));
      c := c.(signal := Flags(GtMask(c.sma20, c.sma50)));
      c := c.(signal := Masked(c.signal, AboveMask(c.rsi, Overbought), 0.0));
      MaskedSignal(c.sma20, c.sma50, c.rsi);
      c := c.(position := Diff(c.signal));
      c := c.(strategyReturns := Mul(Shift(c.dailyReturn, -1), BuyBars(c.position)));
      c := c.(buyAndHoldReturns := Shift(c.dailyReturn, -1));
      c := c.(cumulativeStrategyReturns := CumReturns(c.strategyReturns));
      c := c.(cumulativeBuyAndHoldReturns := CumReturns(c.buyAndHoldReturns));
      var rs := DropNa(c.strategyReturns);
      var sharpe := SharpeRatio(num, rs);
      var maxDrawdown := MaxDrawdown(rs);
      var totalStrategy := LastValue(c.cumulativeStrategyReturns);
      var totalBuyHold := LastValue(c.cumulativeBuyAndHoldReturns);
      m := Metrics(totalStrategy, totalBuyHold, sharpe, maxDrawdown);
      ReturnsAsWritten(c.dailyReturn, c.position);
      cols := c;
    }
  }

  /** After both steps the long-only return of bar i is the next bar's return
      on a buy bar and 0 on every other bar, and buy and hold earns the next
      bar's return. */
  lemma BacktestReturns(close: seq<real>, i: int)
    requires 0 <= i < |close|
    ensures var s := GatedSignal(Sma(close, 20), Sma(close, 50), Rsi(close, 14));
      var dr := PctChange(close);
      StrategyReturns(dr, BuyBars(Diff(s)))[i] ==
        (if i + 1 == |close| || dr[i + 1].None? then None
         else if Diff(s)[i] == Some(1.0) then dr[i + 1]
         else Some(0.0)) &&
      Shift(dr, -1)[i] == (if i + 1 < |close| then dr[i + 1] else None)
  {
    var s := GatedSignal(Sma(close, 20), Sma(close, 50), Rsi(close, 14));
    LongOnlyReturnsAt(PctChange(close), Diff(s), i);
  }

  /** With positive closes, buy and hold evidently should report the ratio of
      the last close to the first, less 1; as written it reports a missing
      value (`nan%`) for every path. */
  lemma BuyAndHoldReported(num: Numerics, close: seq<real>, position: Column)
    requires |close| > 0 && forall i :: 0 <= i < |close| ==> close[i] > 0.0
    requires |position| == |close|
    ensures BacktestMetrics(num, StrategyReturns(PctChange(close), position), Shift(PctChange(close), -1)).totalBuyHoldReturn.None?
    ensures CompoundedTotal(Shift(PctChange(close), -1)) == close[|close| - 1] / close[0] - 1.0
  {
    BuyAndHoldTotal(close);
  }
}
