/** The column formulas of the indicator engine (src/core/indicators.py), one
    function per derived column, over fully present OHLCV bars. A value pandas
    would leave as NaN, and a division by zero (which pandas turns into an
    infinity or NaN), is the missing marker None. */
module Indicators {
  import opened Series
  import opened Oracles

  // ---------------------------------------------------------------- comparisons with NaN

  /** pandas comparisons: any comparison with NaN is False. */
  predicate Gt(x: Option<real>, y: Option<real>) { x.Some? && y.Some? && x.value > y.value }
  predicate Lt(x: Option<real>, y: Option<real>) { x.Some? && y.Some? && x.value < y.value }
  predicate Ge(x: Option<real>, y: Option<real>) { x.Some? && y.Some? && x.value >= y.value }
  predicate Le(x: Option<real>, y: Option<real>) { x.Some? && y.Some? && x.value <= y.value }

  /** `(c > t).astype(int)` */
  function AboveFlag(c: Column, t: real): (r: Column)
    ensures |r| == |c|
    ensures forall i :: 0 <= i < |c| ==> (r[i] == Some(1.0) <==> c[i].Some? && c[i].value > t)
    ensures forall i :: 0 <= i < |c| ==> r[i] == Some(1.0) || r[i] == Some(0.0)
  {
    seq(|c|, i requires 0 <= i < |c| => Flag(Gt(c[i], Some(t))))
  }

  /** `(c < t).astype(int)` */
  function BelowFlag(c: Column, t: real): (r: Column)
    ensures |r| == |c|
    ensures forall i :: 0 <= i < |c| ==> (r[i] == Some(1.0) <==> c[i].Some? && c[i].value < t)
    ensures forall i :: 0 <= i < |c| ==> r[i] == Some(1.0) || r[i] == Some(0.0)
  {
    seq(|c|, i requires 0 <= i < |c| => Flag(Lt(c[i], Some(t))))
  }

  /** `(a > b).astype(int)` for two columns. */
  function GtFlag(a: Column, b: Column): (r: Column)
    requires |a| == |b|
    ensures |r| == |a|
    ensures forall i :: 0 <= i < |a| ==> (r[i] == Some(1.0) <==> Gt(a[i], b[i]))
    ensures forall i :: 0 <= i < |a| ==> r[i] == Some(1.0) || r[i] == Some(0.0)
  {
    seq(|a|, i requires 0 <= i < |a| => Flag(Gt(a[i], b[i])))
  }

  /** `(a < b).astype(int)` for two columns. */
  function LtFlag(a: Column, b: Column): (r: Column)
    requires |a| == |b|
    ensures |r| == |a|
    ensures forall i :: 0 <= i < |a| ==> (r[i] == Some(1.0) <==> Lt(a[i], b[i]))
    ensures forall i :: 0 <= i < |a| ==> r[i] == Some(1.0) || r[i] == Some(0.0)
  {
    seq(|a|, i requires 0 <= i < |a| => Flag(Lt(a[i], b[i])))
  }

  /** Element-wise arithmetic on columns; a missing operand gives a missing result. */
  function Add(a: Column, b: Column): (r: Column)
    requires |a| == |b|
    ensures |r| == |a|
    ensures forall i :: 0 <= i < |a| ==> (r[i].Some? <==> a[i].Some? && b[i].Some?)
  {
    seq(|a|, i requires 0 <= i < |a| =>
      if a[i].Some? && b[i].Some? then Some(a[i].value + b[i].value) else None)
  }

  function Sub(a: Column, b: Column): (r: Column)
    requires |a| == |b|
    ensures |r| == |a|
    ensures forall i :: 0 <= i < |a| ==> (r[i].Some? <==> a[i].Some? && b[i].Some?)
  {
    seq(|a|, i requires 0 <= i < |a| =>
      if a[i].Some? && b[i].Some? then Some(a[i].value - b[i].value) else None)
  }

  /** Scales every present value by k. */
  function Scale(a: Column, k: real): (r: Column)
    ensures |r| == |a|
    ensures forall i :: 0 <= i < |a| ==> (r[i].Some? <==> a[i].Some?)
  {
    seq(|a|, i requires 0 <= i < |a| => ScaleValue(a[i], k))
  }

  function ScaleValue(x: Option<real>, k: real): Option<real>
  {
    if x.Some? then Some(k * x.value) else None
  }

  /** Element-wise division; a zero denominator (an infinity or NaN in pandas) is missing. */
  function Div(a: Column, b: Column): (r: Column)
    requires |a| == |b|
    ensures |r| == |a|
    ensures forall i :: 0 <= i < |a| ==>
      (r[i].Some? <==> a[i].Some? && b[i].Some? && b[i].value != 0.0)
  {
    seq(|a|, i requires 0 <= i < |a| =>
      if a[i].Some? && b[i].Some? && b[i].value != 0.0 then Some(a[i].value / b[i].value) else None)
  }

  // ---------------------------------------------------------------- moving averages

  /** `Close.rolling(window=p).mean()` */
  function Sma(closes: seq<real>, p: nat): (r: Column)
    requires p >= 1
    ensures |r| == |closes|
  {
    RollingMean(Lift(closes), p)
  }

  /** SMA_p is missing before bar p-1 and is the mean of the last p closes from there on. */
  lemma SmaAt(closes: seq<real>, p: nat, i: int)
    requires p >= 1 && 0 <= i < |closes|
    ensures Sma(closes, p)[i].Some? <==> i >= p - 1
    ensures i >= p - 1 ==> Sma(closes, p)[i] == Some(Mean(closes[i + 1 - p..i + 1]))
  {
    TrailingOfLift(closes, i, p);
  }

  /** A moving average stays within the closes of its window. */
  lemma SmaWithinWindow(closes: seq<real>, p: nat, i: int)
    requires p >= 1 && p - 1 <= i < |closes|
    ensures SeqMin(closes[i + 1 - p..i + 1]) <= Sma(closes, p)[i].value <= SeqMax(closes[i + 1 - p..i + 1])
  {
    SmaAt(closes, p, i);
    MeanBetween(closes[i + 1 - p..i + 1]);
  }

  /** The smoothing factor of `ewm(span=p)`. */
  function Alpha(span: nat): real
  {
    2.0 / (span as real + 1.0)
  }

  /** `ewm(span, adjust=False).mean()` at bar i: seeded with the first value,
      then e_i = e_(i-1) + alpha * (x_i - e_(i-1)). */
  function EmaAt(xs: seq<real>, span: nat, i: nat): real
    requires i < |xs|
  {
    if i == 0 then xs[0] else EmaAt(xs, span, i - 1) + Alpha(span) * (xs[i] - EmaAt(xs, span, i - 1))
  }

  function Ema(xs: seq<real>, span: nat): (r: seq<real>)
    ensures |r| == |xs|
  {
    seq(|xs|, i requires 0 <= i < |xs| => EmaAt(xs, span, i))
  }

  lemma AlphaRange(span: nat)
    requires span >= 1
    ensures 0.0 < Alpha(span) <= 1.0
  {
  }

  /** Every EMA value is a convex combination of the values seen so far: any
      bounds on those values bound it too. */
  lemma {:induction false} EmaWithin(xs: seq<real>, span: nat, i: nat, lo: real, hi: real)
    requires span >= 1 && i < |xs|
    requires forall k :: 0 <= k <= i ==> lo <= xs[k] <= hi
    ensures lo <= EmaAt(xs, span, i) <= hi
  {
    if i > 0 {
      EmaWithin(xs, span, i - 1, lo, hi);
      AlphaRange(span);
      ConvexStep(EmaAt(xs, span, i - 1), xs[i], Alpha(span), lo, hi);
    }
  }

  lemma ConvexStep(e: real, x: real, a: real, lo: real, hi: real)
    requires 0.0 < a <= 1.0 && lo <= e <= hi && lo <= x <= hi
    ensures lo <= e + a * (x - e) <= hi
  {
    MulNonNegative(1.0 - a, e - lo);
    MulNonNegative(a, x - lo);
    MulNonNegative(1.0 - a, hi - e);
    MulNonNegative(a, hi - x);
    assert e + a * (x - e) - lo == (1.0 - a) * (e - lo) + a * (x - lo);
    assert hi - (e + a * (x - e)) == (1.0 - a) * (hi - e) + a * (hi - x);
  }

  lemma MulNonNegative(u: real, v: real)
    requires u >= 0.0 && v >= 0.0
    ensures u * v >= 0.0
  {
  }

  /** The EMA of a constant series is that constant. */
  lemma {:induction false} EmaOfConstant(xs: seq<real>, span: nat, c: real, i: nat)
    requires i < |xs| && forall k :: 0 <= k < |xs| ==> xs[k] == c
    ensures EmaAt(xs, span, i) == c
  {
    if i > 0 {
      EmaOfConstant(xs, span, c, i - 1);
    }
  }

  // ---------------------------------------------------------------- crossovers

  /** `((a > b) & (a.shift(1) <= b.shift(1))).astype(int)`: a crosses above b at bar i. */
  function CrossAbove(a: Column, b: Column): (r: Column)
    requires |a| == |b|
    ensures |r| == |a|
  {
    var pa, pb := Shift(a, 1), Shift(b, 1);
    seq(|a|, i requires 0 <= i < |a| => Flag(Gt(a[i], b[i]) && Le(pa[i], pb[i])))
  }

  /** `((a < b) & (a.shift(1) >= b.shift(1))).astype(int)`: a crosses below b at bar i. */
  function CrossBelow(a: Column, b: Column): (r: Column)
    requires |a| == |b|
    ensures |r| == |a|
  {
    var pa, pb := Shift(a, 1), Shift(b, 1);
    seq(|a|, i requires 0 <= i < |a| => Flag(Lt(a[i], b[i]) && Ge(pa[i], pb[i])))
  }

  /** The cross flags are 0/1; a flag fires exactly on the bar where the strict
      comparison starts to hold after the weak opposite held on the bar before,
      so never on the first bar and never with a missing operand. */
  lemma CrossAt(a: Column, b: Column, i: int)
    requires |a| == |b| && 0 <= i < |a|
    ensures CrossAbove(a, b)[i] == Some(1.0) || CrossAbove(a, b)[i] == Some(0.0)
    ensures CrossBelow(a, b)[i] == Some(1.0) || CrossBelow(a, b)[i] == Some(0.0)
    ensures CrossAbove(a, b)[i] == Some(1.0) <==>
      i >= 1 && a[i].Some? && b[i].Some? && a[i - 1].Some? && b[i - 1].Some? &&
      a[i].value > b[i].value && a[i - 1].value <= b[i - 1].value
    ensures CrossBelow(a, b)[i] == Some(1.0) <==>
      i >= 1 && a[i].Some? && b[i].Some? && a[i - 1].Some? && b[i - 1].Some? &&
      a[i].value < b[i].value && a[i - 1].value >= b[i - 1].value
  {
    var pa, pb := Shift(a, 1), Shift(b, 1);
    assert i >= 1 ==> pa[i] == a[i - 1] && pb[i] == b[i - 1];
    assert i == 0 ==> pa[i] == None;
  }

  /** A golden cross and a death cross never fire on the same bar. */
  lemma CrossExclusive(a: Column, b: Column, i: int)
    requires |a| == |b| && 0 <= i < |a|
    ensures !(CrossAbove(a, b)[i] == Some(1.0) && CrossBelow(a, b)[i] == Some(1.0))
  {
    CrossAt(a, b, i);
  }

  /** A cross above cannot fire on two consecutive bars. */
  lemma CrossNotRepeated(a: Column, b: Column, i: int)
    requires |a| == |b| && 0 <= i && i + 1 < |a|
    ensures CrossAbove(a, b)[i] == Some(1.0) ==> CrossAbove(a, b)[i + 1] == Some(0.0)
    ensures CrossBelow(a, b)[i] == Some(1.0) ==> CrossBelow(a, b)[i + 1] == Some(0.0)
  {
    CrossAt(a, b, i);
    CrossAt(a, b, i + 1);
  }

  // ---------------------------------------------------------------- RSI

  /** `delta.where(delta > 0, 0)`: the first delta is NaN and is replaced by 0. */
  function Gains(closes: seq<real>): (r: seq<real>)
    ensures |r| == |closes|
    ensures forall i :: 0 <= i < |r| ==> r[i] >= 0.0
  {
    seq(|closes|, i requires 0 <= i < |closes| =>
      if i >= 1 && closes[i] - closes[i - 1] > 0.0 then closes[i] - closes[i - 1] else 0.0)
  }

  /** `-delta.where(delta < 0, 0)` */
  function Losses(closes: seq<real>): (r: seq<real>)
    ensures |r| == |closes|
    ensures forall i :: 0 <= i < |r| ==> r[i] >= 0.0
  {
    seq(|closes|, i requires 0 <= i < |closes| =>
      if i >= 1 && closes[i] - closes[i - 1] < 0.0 then closes[i - 1] - closes[i] else 0.0)
  }

  /** `100 - 100 / (1 + gain / loss)` with IEEE division: a zero loss gives
      rs = inf and RSI 100 when the gain is positive, and NaN when it is 0. */
  function RsiValue(gain: real, loss: real): Option<real>
  {
    if loss == 0.0 then (if gain > 0.0 then Some(100.0) else None)
    else if 1.0 + gain / loss == 0.0 then None
    else Some(100.0 - 100.0 / (1.0 + gain / loss))
  }

  function Rsi(closes: seq<real>, p: nat): (r: Column)
    requires p >= 1
    ensures |r| == |closes|
  {
    var g, l := RollingMean(Lift(Gains(closes)), p), RollingMean(Lift(Losses(closes)), p);
    seq(|closes|, i requires 0 <= i < |closes| =>
      if g[i].Some? && l[i].Some? then RsiValue(g[i].value, l[i].value) else None)
  }

  /** For average gain g and loss l, RSI is 100 g / (g + l), so it lies in [0, 100];
      it is missing exactly when both are 0. */
  lemma RsiValueFormula(g: real, l: real)
    requires g >= 0.0 && l >= 0.0
    ensures RsiValue(g, l).Some? <==> g + l > 0.0
    ensures g + l > 0.0 ==> RsiValue(g, l) == Some(100.0 * g / (g + l))
    ensures g + l > 0.0 ==> 0.0 <= RsiValue(g, l).value <= 100.0
  {
    if l > 0.0 {
      var rs := g / l;
      assert rs * l == g;
      MulNonNegative(rs, l);
      DivIdentity(rs, g, l);
    } else if g > 0.0 {
      assert g + l == g;
      DivMul(100.0 * g, g);
      CancelFactor(100.0 * g / g, 100.0, g);
    }
  }

  /** With rs = g / l: 100 - 100 / (1 + rs) == 100 g / (g + l), which lies in [0, 100]. */
  lemma DivIdentity(rs: real, g: real, l: real)
    requires l > 0.0 && g >= 0.0 && rs * l == g
    ensures 1.0 + rs != 0.0
    ensures 100.0 - 100.0 / (1.0 + rs) == 100.0 * g / (g + l)
    ensures 0.0 <= 100.0 * g / (g + l) <= 100.0
  {
    var q := 1.0 + rs;
    assert q * l == g + l;
    assert q > 0.0;
    var t := 100.0 / q;
    assert t * q == 100.0;
    assert t * (g + l) == 100.0 * l by {
      assert t * (g + l) == t * (q * l) == (t * q) * l;
    }
    var u := 100.0 * g / (g + l);
    assert u * (g + l) == 100.0 * g;
    assert (100.0 - t) * (g + l) == 100.0 * g;
    CancelFactor(100.0 - t, u, g + l);
    DivBounds(100.0 * g, g + l, 0.0, 100.0);
  }

  lemma DivMul(x: real, y: real)
    requires y != 0.0
    ensures (x / y) * y == x
  {
  }

  lemma CancelFactor(a: real, b: real, c: real)
    requires c != 0.0 && a * c == b * c
    ensures a == b
  {
    assert (a - b) * c == 0.0;
  }

  lemma MeanNonNegative(xs: seq<real>)
    requires |xs| > 0 && forall k :: 0 <= k < |xs| ==> xs[k] >= 0.0
    ensures Mean(xs) >= 0.0
  {
    MeanBounds(xs, 0.0, SeqMax(xs));
  }

  /** RSI at bar i: missing before bar p-1; from there on 100 g / (g + l) of the
      window's average gain and loss, in [0, 100], and missing only for a window
      without any price change. */
  lemma RsiAt(closes: seq<real>, p: nat, i: int)
    requires p >= 1 && 0 <= i < |closes|
    ensures i < p - 1 ==> Rsi(closes, p)[i] == None
    ensures i >= p - 1 ==>
      var g, l := Mean(Gains(closes)[i + 1 - p..i + 1]), Mean(Losses(closes)[i + 1 - p..i + 1]);
      g >= 0.0 && l >= 0.0 &&
      (Rsi(closes, p)[i].Some? <==> g + l > 0.0) &&
      (g + l > 0.0 ==> Rsi(closes, p)[i] == Some(100.0 * g / (g + l)))
    ensures Rsi(closes, p)[i].Some? ==> 0.0 <= Rsi(closes, p)[i].value <= 100.0
  {
    TrailingOfLift(Gains(closes), i, p);
    TrailingOfLift(Losses(closes), i, p);
    if i >= p - 1 {
      var gs, ls := Gains(closes)[i + 1 - p..i + 1], Losses(closes)[i + 1 - p..i + 1];
      MeanNonNegative(gs);
      MeanNonNegative(ls);
      RsiValueFormula(Mean(gs), Mean(ls));
    }
  }

  /** A window whose losses average 0 and gains do not gives RSI exactly 100. */
  lemma RsiAllGains(closes: seq<real>, p: nat, i: int)
    requires p >= 1 && p - 1 <= i < |closes|
    requires Mean(Losses(closes)[i + 1 - p..i + 1]) == 0.0 && Mean(Gains(closes)[i + 1 - p..i + 1]) > 0.0
    ensures Rsi(closes, p)[i] == Some(100.0)
  {
    TrailingOfLift(Gains(closes), i, p);
    TrailingOfLift(Losses(closes), i, p);
  }

  // ---------------------------------------------------------------- MACD

  /** MACD = EMA_fast - EMA_slow of the close. */
  function MacdLine(closes: seq<real>, fast: nat, slow: nat): (r: seq<real>)
    ensures |r| == |closes|
  {
    seq(|closes|, i requires 0 <= i < |closes| => EmaAt(closes, fast, i) - EmaAt(closes, slow, i))
  }

  /** MACD_Signal: the EMA of the MACD line. */
  function MacdSignal(closes: seq<real>, fast: nat, slow: nat, signal: nat): (r: seq<real>)
    ensures |r| == |closes|
  {
    Ema(MacdLine(closes, fast, slow), signal)
  }

  /** MACD_Histogram = MACD - MACD_Signal. */
  function MacdHistogram(closes: seq<real>, fast: nat, slow: nat, signal: nat): (r: seq<real>)
    ensures |r| == |closes|
  {
    var m, s := MacdLine(closes, fast, slow), MacdSignal(closes, fast, slow, signal);
    seq(|closes|, i requires 0 <= i < |closes| => m[i] - s[i])
  }

  /** All EMAs start at the first close, so the MACD line, its signal and the
      histogram are all 0 on the first bar. */
  lemma MacdFirstBar(closes: seq<real>, fast: nat, slow: nat, signal: nat)
    requires |closes| > 0
    ensures MacdLine(closes, fast, slow)[0] == 0.0
    ensures MacdSignal(closes, fast, slow, signal)[0] == 0.0
    ensures MacdHistogram(closes, fast, slow, signal)[0] == 0.0
  {
  }

  /** A flat price gives a flat zero MACD. */
  lemma MacdOfConstant(closes: seq<real>, fast: nat, slow: nat, signal: nat, c: real, i: int)
    requires 0 <= i < |closes| && forall k :: 0 <= k < |closes| ==> closes[k] == c
    ensures MacdLine(closes, fast, slow)[i] == 0.0
    ensures MacdSignal(closes, fast, slow, signal)[i] == 0.0
    ensures MacdHistogram(closes, fast, slow, signal)[i] == 0.0
  {
    var m := MacdLine(closes, fast, slow);
    forall k | 0 <= k < |closes|
      ensures m[k] == 0.0
    {
      EmaOfConstant(closes, fast, c, k);
      EmaOfConstant(closes, slow, c, k);
    }
    EmaOfConstant(m, signal, 0.0, i);
  }

  /** The MACD bullish (bearish) cross fires exactly when the histogram turns
      positive (negative) from a non-positive (non-negative) value. */
  lemma MacdCrossIsHistogramSignChange(closes: seq<real>, fast: nat, slow: nat, signal: nat, i: int)
    requires 0 <= i < |closes|
    ensures var m, s, h := Lift(MacdLine(closes, fast, slow)), Lift(MacdSignal(closes, fast, slow, signal)),
              MacdHistogram(closes, fast, slow, signal);
      (CrossAbove(m, s)[i] == Some(1.0) <==> i >= 1 && h[i] > 0.0 && h[i - 1] <= 0.0) &&
      (CrossBelow(m, s)[i] == Some(1.0) <==> i >= 1 && h[i] < 0.0 && h[i - 1] >= 0.0)
  {
    CrossAt(Lift(MacdLine(closes, fast, slow)), Lift(MacdSignal(closes, fast, slow, signal)), i);
  }

  // ---------------------------------------------------------------- Bollinger bands

  /** BB_Middle: the p-bar SMA. */
  function BbMiddle(closes: seq<real>, p: nat): (r: Column)
    requires p >= 1
    ensures |r| == |closes|
  {
    Sma(closes, p)
  }

  /** BB_Upper = SMA + k * std. */
  function BbUpper(num: Numerics, closes: seq<real>, p: nat, k: real): (r: Column)
    requires p >= 1
    ensures |r| == |closes|
  {
    Add(Sma(closes, p), Scale(RollingStd(num, closes, p), k))
  }

  /** BB_Lower = SMA - k * std. */
  function BbLower(num: Numerics, closes: seq<real>, p: nat, k: real): (r: Column)
    requires p >= 1
    ensures |r| == |closes|
  {
    Sub(Sma(closes, p), Scale(RollingStd(num, closes, p), k))
  }

  /** BB_Width = BB_Upper - BB_Lower. */
  function BbWidth(num: Numerics, closes: seq<real>, p: nat, k: real): (r: Column)
    requires p >= 1
    ensures |r| == |closes|
  {
    Sub(BbUpper(num, closes, p, k), BbLower(num, closes, p, k))
  }

  /** BB_Position = (Close - BB_Lower) / (BB_Upper - BB_Lower). */
  function BbPosition(num: Numerics, closes: seq<real>, p: nat, k: real): (r: Column)
    requires p >= 1
    ensures |r| == |closes|
  {
    Div(Sub(Lift(closes), BbLower(num, closes, p, k)), Sub(BbUpper(num, closes, p, k), BbLower(num, closes, p, k)))
  }

  /** The bands and the width exist exactly from bar p-1 on. */
  lemma BollingerDefined(num: Numerics, closes: seq<real>, p: nat, k: real, i: int)
    requires p >= 1 && 0 <= i < |closes|
    ensures BbMiddle(closes, p)[i].Some? <==> i >= p - 1
    ensures BbUpper(num, closes, p, k)[i].Some? <==> i >= p - 1
    ensures BbLower(num, closes, p, k)[i].Some? <==> i >= p - 1
    ensures BbWidth(num, closes, p, k)[i].Some? <==> i >= p - 1
  {
    SmaAt(closes, p, i);
  }

  /** From bar p-1 on the upper and lower band lie k rolling standard
      deviations (of the window's closes) above and below the middle band. */
  lemma BollingerValues(num: Numerics, closes: seq<real>, p: nat, k: real, i: int)
    requires p >= 1 && p - 1 <= i < |closes|
    ensures RollingStd(num, closes, p)[i] == Some(num.std(closes[i + 1 - p..i + 1]))
    ensures BbUpper(num, closes, p, k)[i] ==
      Some(BbMiddle(closes, p)[i].value + k * RollingStd(num, closes, p)[i].value)
    ensures BbLower(num, closes, p, k)[i] ==
      Some(BbMiddle(closes, p)[i].value - k * RollingStd(num, closes, p)[i].value)
  {
    SmaAt(closes, p, i);
    BandsAt(Sma(closes, p), RollingStd(num, closes, p), k, i);
  }

  lemma BandsAt(mid: Column, sd: Column, k: real, i: int)
    requires |mid| == |sd| && 0 <= i < |mid| && mid[i].Some? && sd[i].Some?
    ensures Add(mid, Scale(sd, k))[i] == Some(mid[i].value + k * sd[i].value)
    ensures Sub(mid, Scale(sd, k))[i] == Some(mid[i].value - k * sd[i].value)
  {
    assert Scale(sd, k)[i] == ScaleValue(sd[i], k);
    var t := Scale(sd, k)[i].value;
    assert t == k * sd[i].value;
  }

  /** With k >= 0, Upper >= Middle >= Lower, and the width is 2 k std. */
  lemma BollingerOrdered(num: Numerics, closes: seq<real>, p: nat, k: real, i: int)
    requires Sound(num) && p >= 1 && k >= 0.0 && p - 1 <= i < |closes|
    ensures BbUpper(num, closes, p, k)[i].value >= BbMiddle(closes, p)[i].value >= BbLower(num, closes, p, k)[i].value
    ensures BbWidth(num, closes, p, k)[i] == Some(2.0 * k * RollingStd(num, closes, p)[i].value)
  {
    BollingerValues(num, closes, p, k, i);
    var sd := RollingStd(num, closes, p)[i].value;
    var u, l := BbUpper(num, closes, p, k)[i].value, BbLower(num, closes, p, k)[i].value;
    BandArithmetic(BbMiddle(closes, p)[i].value, sd, k);
    assert BbWidth(num, closes, p, k)[i] == Some(u - l);
  }

  lemma BandArithmetic(mid: real, sd: real, k: real)
    requires sd >= 0.0 && k >= 0.0
    ensures mid + k * sd >= mid >= mid - k * sd
    ensures (mid + k * sd) - (mid - k * sd) == 2.0 * k * sd
  {
    MulNonNegative(k, sd);
  }

  /** A close above the upper band (the BB_Overbought flag) is a position above 1,
      a close below the lower band (BB_Oversold) a position below 0. */
  /** `(Close > BB_Upper).astype(int)` */
  function BbOverbought(num: Numerics, closes: seq<real>, p: nat, k: real): (r: Column)
    requires p >= 1
    ensures |r| == |closes|
  {
    GtFlag(Lift(closes), BbUpper(num, closes, p, k))
  }

  /** `(Close < BB_Lower).astype(int)` */
  function BbOversold(num: Numerics, closes: seq<real>, p: nat, k: real): (r: Column)
    requires p >= 1
    ensures |r| == |closes|
  {
    LtFlag(Lift(closes), BbLower(num, closes, p, k))
  }

  lemma BollingerPositionFlags(num: Numerics, closes: seq<real>, p: nat, k: real, i: int)
    requires p >= 1 && 0 <= i < |closes|
    requires BbWidth(num, closes, p, k)[i].Some? && BbWidth(num, closes, p, k)[i].value > 0.0
    ensures var pos := BbPosition(num, closes, p, k);
      pos[i].Some? &&
      (BbOverbought(num, closes, p, k)[i] == Some(1.0) <==> pos[i].value > 1.0) &&
      (BbOversold(num, closes, p, k)[i] == Some(1.0) <==> pos[i].value < 0.0)
  {
    var u, l := BbUpper(num, closes, p, k)[i].value, BbLower(num, closes, p, k)[i].value;
    var c := closes[i];
    PositionScale(c, l, u);
  }

  lemma PositionScale(c: real, l: real, u: real)
    requires u - l > 0.0
    ensures c > u <==> (c - l) / (u - l) > 1.0
    ensures c < l <==> (c - l) / (u - l) < 0.0
  {
    var w := u - l;
    var q := (c - l) / w;
    DivMul(c - l, w);
    var d := q - 1.0;
    assert d * w == c - u;
    ProductSign(d, w);
    ProductSign(q, w);
  }

  lemma ProductSign(a: real, b: real)
    requires b > 0.0
    ensures (a * b > 0.0 <==> a > 0.0) && (a * b < 0.0 <==> a < 0.0)
  {
    if a > 0.0 { MulPositive(a, b); }
    if a < 0.0 { MulPositive(-a, b); }
  }

  lemma MulPositive(u: real, v: real)
    requires u > 0.0 && v > 0.0
    ensures u * v > 0.0
  {
  }

  // ---------------------------------------------------------------- stochastic, Williams %R, CCI

  /** Low <= Close <= High on every bar. */
  predicate CloseInRange(bars: seq<Bar>)
  {
    forall i :: 0 <= i < |bars| ==> bars[i].low <= bars[i].close <= bars[i].high
  }

  /** 100 * (c - lo) / (hi - lo); a flat range divides by zero and is missing. */
  function StochValue(c: real, lo: Option<real>, hi: Option<real>): Option<real>
  {
    if lo.Some? && hi.Some? && hi.value - lo.value != 0.0
    then Some(100.0 * ((c - lo.value) / (hi.value - lo.value))) else None
  }

  /** -100 * (hi - c) / (hi - lo) */
  function WilliamsValue(c: real, lo: Option<real>, hi: Option<real>): Option<real>
  {
    if lo.Some? && hi.Some? && hi.value - lo.value != 0.0
    then Some(-100.0 * ((hi.value - c) / (hi.value - lo.value))) else None
  }

  /** Stoch_K = 100 * (Close - lowest Low) / (highest High - lowest Low) over kp bars. */
  function StochK(bars: seq<Bar>, kp: nat): (r: Column)
    requires kp >= 1
    ensures |r| == |bars|
  {
    var lo, hi := RollingMin(Lift(Lows(bars)), kp), RollingMax(Lift(Highs(bars)), kp);
    seq(|bars|, i requires 0 <= i < |bars| => StochValue(bars[i].close, lo[i], hi[i]))
  }

  /** Stoch_D: the dp-bar mean of Stoch_K. */
  function StochD(bars: seq<Bar>, kp: nat, dp: nat): (r: Column)
    requires kp >= 1 && dp >= 1
    ensures |r| == |bars|
  {
    RollingMean(StochK(bars, kp), dp)
  }

  /** Williams_R = -100 * (highest High - Close) / (highest High - lowest Low) over 14 bars. */
  function WilliamsR(bars: seq<Bar>): (r: Column)
    ensures |r| == |bars|
  {
    var lo, hi := RollingMin(Lift(Lows(bars)), 14), RollingMax(Lift(Highs(bars)), 14);
    seq(|bars|, i requires 0 <= i < |bars| => WilliamsValue(bars[i].close, lo[i], hi[i]))
  }

  /** The lowest low and highest high of the kp bars ending at bar i. */
  lemma RangeAt(bars: seq<Bar>, kp: nat, i: int)
    requires kp >= 1 && kp - 1 <= i < |bars|
    ensures RollingMin(Lift(Lows(bars)), kp)[i] == Some(SeqMin(Lows(bars)[i + 1 - kp..i + 1]))
    ensures RollingMax(Lift(Highs(bars)), kp)[i] == Some(SeqMax(Highs(bars)[i + 1 - kp..i + 1]))
    ensures SeqMin(Lows(bars)[i + 1 - kp..i + 1]) <= bars[i].low
    ensures bars[i].high <= SeqMax(Highs(bars)[i + 1 - kp..i + 1])
  {
    TrailingOfLift(Lows(bars), i, kp);
    TrailingOfLift(Highs(bars), i, kp);
    assert Lows(bars)[i + 1 - kp..i + 1][kp - 1] == bars[i].low;
    assert Highs(bars)[i + 1 - kp..i + 1][kp - 1] == bars[i].high;
  }

  /** Both range extremes are missing before bar kp-1. */
  lemma RangeMissing(bars: seq<Bar>, kp: nat, i: int)
    requires kp >= 1 && 0 <= i < kp - 1 && i < |bars|
    ensures RollingMin(Lift(Lows(bars)), kp)[i] == None
    ensures RollingMax(Lift(Highs(bars)), kp)[i] == None
  {
    TrailingOfLift(Lows(bars), i, kp);
    TrailingOfLift(Highs(bars), i, kp);
  }

  /** On bars with Low <= Close <= High, Stoch_K lies in [0, 100]; it exists
      from bar kp-1 on, except where the range is flat. */
  lemma StochKAt(bars: seq<Bar>, kp: nat, i: int)
    requires kp >= 1 && CloseInRange(bars) && 0 <= i < |bars|
    ensures StochK(bars, kp)[i].Some? <==>
      i >= kp - 1 && SeqMax(Highs(bars)[i + 1 - kp..i + 1]) != SeqMin(Lows(bars)[i + 1 - kp..i + 1])
    ensures StochK(bars, kp)[i].Some? ==> 0.0 <= StochK(bars, kp)[i].value <= 100.0
  {
    var lo, hi := RollingMin(Lift(Lows(bars)), kp), RollingMax(Lift(Highs(bars)), kp);
    assert StochK(bars, kp)[i] == StochValue(bars[i].close, lo[i], hi[i]);
    if i >= kp - 1 {
      RangeAt(bars, kp, i);
      StochValueBounds(bars[i].close, lo[i], hi[i]);
    } else {
      RangeMissing(bars, kp, i);
    }
  }

  lemma StochValueBounds(c: real, lo: Option<real>, hi: Option<real>)
    requires lo.Some? && hi.Some? && lo.value <= c <= hi.value
    ensures StochValue(c, lo, hi).Some? <==> hi.value != lo.value
    ensures StochValue(c, lo, hi).Some? ==> 0.0 <= StochValue(c, lo, hi).value <= 100.0
  {
    if hi.value != lo.value {
      DivBounds(c - lo.value, hi.value - lo.value, 0.0, 1.0);
    }
  }

  /** With the default 14-bar window, Williams %R is Stoch_K shifted down by 100. */
  lemma WilliamsIsShiftedStochK(bars: seq<Bar>, i: int)
    requires 0 <= i < |bars|
    ensures WilliamsR(bars)[i].Some? <==> StochK(bars, 14)[i].Some?
    ensures WilliamsR(bars)[i].Some? ==> WilliamsR(bars)[i].value == StochK(bars, 14)[i].value - 100.0
  {
    var lo, hi := RollingMin(Lift(Lows(bars)), 14), RollingMax(Lift(Highs(bars)), 14);
    assert StochK(bars, 14)[i] == StochValue(bars[i].close, lo[i], hi[i]);
    assert WilliamsR(bars)[i] == WilliamsValue(bars[i].close, lo[i], hi[i]);
    WilliamsValueIsShifted(bars[i].close, lo[i], hi[i]);
  }

  lemma WilliamsValueIsShifted(c: real, lo: Option<real>, hi: Option<real>)
    ensures WilliamsValue(c, lo, hi).Some? <==> StochValue(c, lo, hi).Some?
    ensures WilliamsValue(c, lo, hi).Some? ==> WilliamsValue(c, lo, hi).value == StochValue(c, lo, hi).value - 100.0
  {
    if lo.Some? && hi.Some? && hi.value - lo.value != 0.0 {
      ComplementRatio(c, lo.value, hi.value);
    }
  }

  lemma ComplementRatio(c: real, lo: real, hi: real)
    requires hi - lo != 0.0
    ensures -100.0 * ((hi - c) / (hi - lo)) == 100.0 * ((c - lo) / (hi - lo)) - 100.0
  {
    var w := hi - lo;
    var x, y := (hi - c) / w, (c - lo) / w;
    DivMul(hi - c, w);
    DivMul(c - lo, w);
    assert (x + y) * w == x * w + y * w;
    CancelFactor(x + y, 1.0, w);
  }

  /** Typical price (High + Low + Close) / 3. */
  function TypicalPrices(bars: seq<Bar>): (r: seq<real>)
    ensures |r| == |bars|
  {
    seq(|bars|, i requires 0 <= i < |bars| => (bars[i].high + bars[i].low + bars[i].close) / 3.0)
  }

  /** `np.mean(np.abs(x - np.mean(x)))`: the mean absolute deviation. */
  function MeanAbsDev(xs: seq<real>): real
    requires |xs| > 0
  {
    var m := Mean(xs);
    Mean(seq(|xs|, k requires 0 <= k < |xs| => Abs(xs[k] - m)))
  }

  lemma MeanAbsDevNonNegative(xs: seq<real>)
    requires |xs| > 0
    ensures MeanAbsDev(xs) >= 0.0
  {
    var m := Mean(xs);
    MeanNonNegative(seq(|xs|, k requires 0 <= k < |xs| => Abs(xs[k] - m)));
  }

  /** `rolling(window=w).apply(mean absolute deviation)` */
  function RollingMad(xs: seq<real>, w: nat): (r: Column)
    requires w >= 1
    ensures |r| == |xs|
  {
    seq(|xs|, i requires 0 <= i < |xs| =>
      match Trailing(Lift(xs), i, w)
      case Some(ys) => Some(MeanAbsDev(ys))
      case None => None)
  }

  /** (tp - sma) / (0.015 * mad); a zero deviation divides by zero and is missing. */
  function CciValue(tp: real, sma: Option<real>, mad: Option<real>): Option<real>
  {
    if sma.Some? && mad.Some? && 0.015 * mad.value != 0.0
    then Some((tp - sma.value) / (0.015 * mad.value)) else None
  }

  /** CCI over 20 bars of typical price. */
  function Cci(bars: seq<Bar>): (r: Column)
    ensures |r| == |bars|
  {
    var tp := TypicalPrices(bars);
    var sma, mad := RollingMean(Lift(tp), 20), RollingMad(tp, 20);
    seq(|bars|, i requires 0 <= i < |bars| => CciValue(tp[i], sma[i], mad[i]))
  }

  lemma DivSign(x: real, d: real)
    requires d > 0.0
    ensures (x / d > 0.0 <==> x > 0.0) && (x / d < 0.0 <==> x < 0.0)
  {
    var q := x / d;
    DivMul(x, d);
    ProductSign(q, d);
  }

  /** CCI is missing before bar 19 and where the window's mean absolute
      deviation is 0; elsewhere its sign is that of typical price minus its SMA. */
  lemma CciAt(bars: seq<Bar>, i: int)
    requires 0 <= i < |bars|
    ensures i < 19 ==> Cci(bars)[i] == None
    ensures i >= 19 ==>
      var tp := TypicalPrices(bars);
      var w := tp[i - 19..i + 1];
      (Cci(bars)[i].Some? <==> MeanAbsDev(w) != 0.0) &&
      (Cci(bars)[i].Some? ==>
        (Cci(bars)[i].value > 0.0 <==> tp[i] > Mean(w)) &&
        (Cci(bars)[i].value < 0.0 <==> tp[i] < Mean(w)))
  {
    var tp := TypicalPrices(bars);
    var sma, mad := RollingMean(Lift(tp), 20), RollingMad(tp, 20);
    assert Cci(bars)[i] == CciValue(tp[i], sma[i], mad[i]);
    TrailingOfLift(tp, i, 20);
    if i >= 19 {
      var w := tp[i - 19..i + 1];
      MeanAbsDevNonNegative(w);
      if MeanAbsDev(w) != 0.0 {
        DivSign(tp[i] - Mean(w), 0.015 * MeanAbsDev(w));
      }
    }
  }

  // ---------------------------------------------------------------- volume

  /** `np.sign(Close.diff()) * Volume` with the first (NaN) step filled with 0. */
  function ObvSteps(bars: seq<Bar>): (r: seq<real>)
    ensures |r| == |bars|
  {
    seq(|bars|, i requires 0 <= i < |bars| =>
      if i == 0 then 0.0
      else if bars[i].close > bars[i - 1].close then bars[i].volume
      else if bars[i].close < bars[i - 1].close then -bars[i].volume
      else 0.0)
  }

  /** OBV: the running sum of the signed volumes. */
  function Obv(bars: seq<Bar>): (r: seq<real>)
    ensures |r| == |bars|
  {
    CumSum(ObvSteps(bars))
  }

  /** OBV starts at 0 and each later bar adds the volume on an up close,
      subtracts it on a down close and keeps the total on an unchanged close. */
  lemma ObvRecurrence(bars: seq<Bar>, i: int)
    requires 0 <= i < |bars|
    ensures i == 0 ==> Obv(bars)[i] == 0.0
    ensures i > 0 ==> (Obv(bars)[i] == Obv(bars)[i - 1] +
      (if bars[i].close > bars[i - 1].close then bars[i].volume
       else if bars[i].close < bars[i - 1].close then -bars[i].volume
       else 0.0))
  {
    if i == 0 {
      assert ObvSteps(bars)[..1] == [0.0];
      assert Sum([0.0]) == Sum([]) + 0.0;
    } else {
      CumSumStep(ObvSteps(bars), i);
    }
  }

  /** With non-negative volumes, |OBV| never exceeds the volume traded so far. */
  lemma {:induction false} ObvBounded(bars: seq<Bar>, i: int)
    requires 0 <= i < |bars| && forall k :: 0 <= k < |bars| ==> bars[k].volume >= 0.0
    ensures Abs(Obv(bars)[i]) <= Sum(Volumes(bars)[..i + 1])
  {
    ObvRecurrence(bars, i);
    var vs := Volumes(bars);
    SumPrefixStep(vs, i);
    if i > 0 {
      ObvBounded(bars, i - 1);
    }
  }

  /** Volume_ROC = `pct_change(periods=10) * 100`: (v_i / v_(i-10) - 1) * 100. */
  function VolumeRoc(bars: seq<Bar>): (r: Column)
    ensures |r| == |bars|
  {
    seq(|bars|, i requires 0 <= i < |bars| =>
      if i >= 10 && bars[i - 10].volume != 0.0
      then Some((bars[i].volume / bars[i - 10].volume - 1.0) * 100.0) else None)
  }

  /** Volume_ROC is missing on the first 10 bars; against a positive volume ten
      bars earlier it is positive exactly when volume grew. */
  lemma VolumeRocAt(bars: seq<Bar>, i: int)
    requires 0 <= i < |bars|
    ensures i < 10 ==> VolumeRoc(bars)[i] == None
    ensures i >= 10 && bars[i - 10].volume > 0.0 ==>
      VolumeRoc(bars)[i].Some? && (VolumeRoc(bars)[i].value > 0.0 <==> bars[i].volume > bars[i - 10].volume)
  {
    if i >= 10 && bars[i - 10].volume > 0.0 {
      var v, v0 := bars[i].volume, bars[i - 10].volume;
      DivSign(v - v0, v0);
      DivMinusOne(v, v0);
    }
  }

  lemma DivMinusOne(v: real, d: real)
    requires d != 0.0
    ensures v / d - 1.0 == (v - d) / d
  {
    DivMul(v, d);
    DivMul(v - d, d);
    assert (v / d - 1.0) * d == v / d * d - d;
    CancelFactor(v / d - 1.0, (v - d) / d, d);
  }

  /** Volume_MA: the 20-bar mean volume. */
  function VolumeMa(bars: seq<Bar>): (r: Column)
    ensures |r| == |bars|
  {
    RollingMean(Lift(Volumes(bars)), 20)
  }

  /** Volume_Ratio = Volume / Volume_MA. */
  function VolumeRatio(bars: seq<Bar>): (r: Column)
    ensures |r| == |bars|
  {
    Div(Lift(Volumes(bars)), VolumeMa(bars))
  }

  /** Volume_Ratio exists from bar 19 on wherever the 20-bar mean volume is
      nonzero, and is above 1 exactly when the bar's volume beats that mean. */
  lemma VolumeRatioAt(bars: seq<Bar>, i: int)
    requires 0 <= i < |bars|
    ensures i < 19 ==> VolumeRatio(bars)[i] == None
    ensures i >= 19 ==>
      var m := Mean(Volumes(bars)[i - 19..i + 1]);
      (VolumeRatio(bars)[i].Some? <==> m != 0.0) &&
      (m > 0.0 ==> (VolumeRatio(bars)[i].value > 1.0 <==> bars[i].volume > m))
  {
    TrailingOfLift(Volumes(bars), i, 20);
    if i >= 19 {
      var m := Mean(Volumes(bars)[i - 19..i + 1]);
      if m > 0.0 {
        var v := bars[i].volume;
        DivSign(v - m, m);
        DivMinusOne(v, m);
      }
    }
  }

  // ---------------------------------------------------------------- ATR and Keltner

  /** True range: the largest of High - Low, |High - previous Close| and
      |Low - previous Close|; the first bar has no previous close and pandas'
      row-wise max skips the NaN terms, leaving High - Low. */
  function TrueRange(bars: seq<Bar>, i: int): real
    requires 0 <= i < |bars|
  {
    var hl := bars[i].high - bars[i].low;
    if i == 0 then hl
    else Max(hl, Max(Abs(bars[i].high - bars[i - 1].close), Abs(bars[i].low - bars[i - 1].close)))
  }

  function TrueRanges(bars: seq<Bar>): (r: seq<real>)
    ensures |r| == |bars|
    ensures forall i :: 0 <= i < |bars| ==> r[i] >= bars[i].high - bars[i].low
  {
    seq(|bars|, i requires 0 <= i < |bars| => TrueRange(bars, i))
  }

  /** ATR: the 14-bar mean true range. */
  function Atr(bars: seq<Bar>): (r: Column)
    ensures |r| == |bars|
  {
    RollingMean(Lift(TrueRanges(bars)), 14)
  }

  /** ATR exists from bar 13 on, and is at least the mean High - Low of its
      window, so it is non-negative on bars with Low <= High. */
  lemma AtrAt(bars: seq<Bar>, i: int)
    requires 0 <= i < |bars| && forall k :: 0 <= k < |bars| ==> bars[k].low <= bars[k].high
    ensures Atr(bars)[i].Some? <==> i >= 13
    ensures Atr(bars)[i].Some? ==> Atr(bars)[i].value >= 0.0
  {
    TrailingOfLift(TrueRanges(bars), i, 14);
    if i >= 13 {
      MeanNonNegative(TrueRanges(bars)[i - 13..i + 1]);
    }
  }

  function KcUpperValue(ema: real, atr: Option<real>): Option<real>
  {
    if atr.Some? then Some(ema + atr.value * 2.0) else None
  }

  function KcLowerValue(ema: real, atr: Option<real>): Option<real>
  {
    if atr.Some? then Some(ema - atr.value * 2.0) else None
  }

  /** KC_Middle: the 20-span EMA of the close. */
  function KcMiddle(closes: seq<real>): (r: Column)
    ensures |r| == |closes|
  {
    Lift(Ema(closes, 20))
  }

  /** KC_Upper = EMA_20 + 2 ATR */
  function KcUpper(closes: seq<real>, atr: Column): (r: Column)
    requires |atr| == |closes|
    ensures |r| == |closes|
  {
    var e := Ema(closes, 20);
    seq(|closes|, i requires 0 <= i < |closes| => KcUpperValue(e[i], atr[i]))
  }

  /** KC_Lower = EMA_20 - 2 ATR */
  function KcLower(closes: seq<real>, atr: Column): (r: Column)
    requires |atr| == |closes|
    ensures |r| == |closes|
  {
    var e := Ema(closes, 20);
    seq(|closes|, i requires 0 <= i < |closes| => KcLowerValue(e[i], atr[i]))
  }

  /** The Keltner channel is symmetric: both half-widths are 2 ATR, and the
      outer lines exist exactly where ATR does. */
  lemma KeltnerSymmetric(closes: seq<real>, atr: Column, i: int)
    requires |atr| == |closes| && 0 <= i < |closes|
    ensures KcUpper(closes, atr)[i].Some? <==> atr[i].Some?
    ensures KcLower(closes, atr)[i].Some? <==> atr[i].Some?
    ensures atr[i].Some? ==>
      KcUpper(closes, atr)[i].value - KcMiddle(closes)[i].value == 2.0 * atr[i].value &&
      KcMiddle(closes)[i].value - KcLower(closes, atr)[i].value == 2.0 * atr[i].value
  {
    var e := Ema(closes, 20);
    assert KcUpper(closes, atr)[i] == KcUpperValue(e[i], atr[i]);
    assert KcLower(closes, atr)[i] == KcLowerValue(e[i], atr[i]);
  }

  // ---------------------------------------------------------------- Ichimoku

  function MidValue(hi: Option<real>, lo: Option<real>): Option<real>
  {
    if hi.Some? && lo.Some? then Some((hi.value + lo.value) / 2.0) else None
  }

  /** (highest High + lowest Low) / 2 over w bars. */
  function MidRange(bars: seq<Bar>, w: nat): (r: Column)
    requires w >= 1
    ensures |r| == |bars|
  {
    var hi, lo := RollingMax(Lift(Highs(bars)), w), RollingMin(Lift(Lows(bars)), w);
    seq(|bars|, i requires 0 <= i < |bars| => MidValue(hi[i], lo[i]))
  }

  /** Ichimoku_Tenkan: the 9-bar mid range. */
  function Tenkan(bars: seq<Bar>): (r: Column)
    ensures |r| == |bars|
  {
    MidRange(bars, 9)
  }

  /** Ichimoku_Kijun: the 26-bar mid range. */
  function Kijun(bars: seq<Bar>): (r: Column)
    ensures |r| == |bars|
  {
    MidRange(bars, 26)
  }

  /** Ichimoku_Senkou_A: (Tenkan + Kijun) / 2, led 26 bars forward. */
  function SenkouA(bars: seq<Bar>): (r: Column)
    ensures |r| == |bars|
  {
    var t, k := Tenkan(bars), Kijun(bars);
    Shift(seq(|bars|, i requires 0 <= i < |bars| => MidValue(t[i], k[i])), 26)
  }

  /** Ichimoku_Senkou_B: the 52-bar mid range, led 26 bars forward. */
  function SenkouB(bars: seq<Bar>): (r: Column)
    ensures |r| == |bars|
  {
    Shift(MidRange(bars, 52), 26)
  }

  /** Ichimoku_Chikou: the close shifted 26 bars back. */
  function Chikou(bars: seq<Bar>): (r: Column)
    ensures |r| == |bars|
  {
    Shift(Lift(Closes(bars)), -26)
  }

  /** A w-bar mid range exists exactly from bar w-1 on. */
  lemma MidRangeDefined(bars: seq<Bar>, w: nat, i: int)
    requires w >= 1 && 0 <= i < |bars|
    ensures MidRange(bars, w)[i].Some? <==> i >= w - 1
  {
    var hi, lo := RollingMax(Lift(Highs(bars)), w), RollingMin(Lift(Lows(bars)), w);
    assert MidRange(bars, w)[i] == MidValue(hi[i], lo[i]);
    TrailingOfLift(Highs(bars), i, w);
    TrailingOfLift(Lows(bars), i, w);
  }

  /** The leading spans are the mid ranges of 26 bars earlier: Senkou A exists
      from bar 51 (Kijun's bar 25, led 26), Senkou B from bar 77 (bar 51 of the
      52-bar range, led 26); the lagging span is the close 26 bars later. */
  lemma IchimokuShifts(bars: seq<Bar>, i: int)
    requires 0 <= i < |bars|
    ensures SenkouA(bars)[i].Some? <==> i >= 51
    ensures SenkouB(bars)[i].Some? <==> i >= 77
    ensures i >= 26 ==> SenkouA(bars)[i] == MidValue(Tenkan(bars)[i - 26], Kijun(bars)[i - 26])
    ensures i >= 26 ==> SenkouB(bars)[i] == MidRange(bars, 52)[i - 26]
    ensures Chikou(bars)[i] == if i + 26 < |bars| then Some(bars[i + 26].close) else None
  {
    if i >= 26 {
      MidRangeDefined(bars, 9, i - 26);
      MidRangeDefined(bars, 26, i - 26);
      MidRangeDefined(bars, 52, i - 26);
    }
  }

  // ---------------------------------------------------------------- VWAP

  function TypicalPrice(b: Bar): real
  {
    (b.high + b.low + b.close) / 3.0
  }

  /** Typical price times volume of one bar. */
  function PriceVolume(b: Bar): real
  {
    TypicalPrice(b) * b.volume
  }

  function PriceVolumes(bars: seq<Bar>): (r: seq<real>)
    ensures |r| == |bars|
  {
    seq(|bars|, i requires 0 <= i < |bars| => PriceVolume(bars[i]))
  }

  /** VWAP = cumsum(typical price * volume) / cumsum(volume); a zero cumulative
      volume divides by zero and is missing. */
  function Vwap(bars: seq<Bar>): (r: Column)
    ensures |r| == |bars|
  {
    var tpv, vol := CumSum(PriceVolumes(bars)), CumSum(Volumes(bars));
    seq(|bars|, i requires 0 <= i < |bars| => if vol[i] != 0.0 then Some(tpv[i] / vol[i]) else None)
  }

  /** A running sum of terms each at least c times its weight is at least c
      times the running sum of the weights. */
  lemma {:induction false} WeightedSumLower(vs: seq<real>, ws: seq<real>, n: nat, c: real)
    requires |vs| == |ws| && n <= |vs|
    requires forall k :: 0 <= k < |vs| ==> c * vs[k] <= ws[k]
    ensures c * Sum(vs[..n]) <= Sum(ws[..n])
  {
    if n > 0 {
      var m := n - 1;
      WeightedSumLower(vs, ws, m, c);
      SumPrefixStep(vs, m);
      SumPrefixStep(ws, m);
      StepLower(Sum(vs[..m]), Sum(ws[..m]), vs[m], ws[m], Sum(vs[..n]), Sum(ws[..n]), c);
    }
  }

  /** The mirror image of WeightedSumLower. */
  lemma {:induction false} WeightedSumUpper(vs: seq<real>, ws: seq<real>, n: nat, c: real)
    requires |vs| == |ws| && n <= |vs|
    requires forall k :: 0 <= k < |vs| ==> ws[k] <= c * vs[k]
    ensures Sum(ws[..n]) <= c * Sum(vs[..n])
  {
    if n > 0 {
      var m := n - 1;
      WeightedSumUpper(vs, ws, m, c);
      SumPrefixStep(vs, m);
      SumPrefixStep(ws, m);
      StepUpper(Sum(vs[..m]), Sum(ws[..m]), vs[m], ws[m], Sum(vs[..n]), Sum(ws[..n]), c);
    }
  }

  lemma StepLower(a: real, t: real, v: real, w: real, a': real, t': real, c: real)
    requires a' == a + v && t' == t + w && c * a <= t && c * v <= w
    ensures c * a' <= t'
  {
    assert c * a' == c * a + c * v;
  }

  lemma StepUpper(a: real, t: real, v: real, w: real, a': real, t': real, c: real)
    requires a' == a + v && t' == t + w && t <= c * a && w <= c * v
    ensures t' <= c * a'
  {
    assert c * a' == c * a + c * v;
  }

  /** A bar's price-volume product lies within the price bounds times its volume. */
  lemma PriceVolumeWithin(b: Bar, lo: real, hi: real)
    requires b.volume >= 0.0 && lo <= TypicalPrice(b) <= hi
    ensures lo * b.volume <= PriceVolume(b) <= hi * b.volume
  {
    MulNonNegative(TypicalPrice(b) - lo, b.volume);
    MulNonNegative(hi - TypicalPrice(b), b.volume);
    assert (TypicalPrice(b) - lo) * b.volume == PriceVolume(b) - lo * b.volume;
    assert (hi - TypicalPrice(b)) * b.volume == hi * b.volume - PriceVolume(b);
  }

  /** VWAP at bar i is the ratio of the running sums up to bar i. */
  lemma VwapAt(bars: seq<Bar>, i: int)
    requires 0 <= i < |bars|
    ensures Vwap(bars)[i] ==
      var vol, tpv := Sum(Volumes(bars)[..i + 1]), Sum(PriceVolumes(bars)[..i + 1]);
      if vol != 0.0 then Some(tpv / vol) else None
  {
  }

  /** The running price-volume sum lies within the price bounds times the
      running volume. */
  lemma RunningSumsWithin(bars: seq<Bar>, n: nat, lo: real, hi: real)
    requires n <= |bars|
    requires forall k :: 0 <= k < |bars| ==> bars[k].volume >= 0.0 && lo <= TypicalPrice(bars[k]) <= hi
    ensures lo * Sum(Volumes(bars)[..n]) <= Sum(PriceVolumes(bars)[..n]) <= hi * Sum(Volumes(bars)[..n])
    ensures Sum(Volumes(bars)[..n]) >= 0.0
  {
    var vs, ws := Volumes(bars), PriceVolumes(bars);
    forall k | 0 <= k < |bars|
      ensures lo * vs[k] <= ws[k] <= hi * vs[k]
    {
      PriceVolumeWithin(bars[k], lo, hi);
    }
    WeightedSumLower(vs, ws, n, lo);
    WeightedSumUpper(vs, ws, n, hi);
    SumNonNegative(vs[..n]);
  }

  /** VWAP at bar i is a running value from the first bar: with non-negative
      volumes it exists wherever some volume has traded, and it lies within
      any bounds on the typical prices. */
  lemma VwapWithin(bars: seq<Bar>, i: int, lo: real, hi: real)
    requires 0 <= i < |bars|
    requires forall k :: 0 <= k < |bars| ==> bars[k].volume >= 0.0 && lo <= TypicalPrice(bars[k]) <= hi
    ensures Vwap(bars)[i].Some? <==> Sum(Volumes(bars)[..i + 1]) != 0.0
    ensures Vwap(bars)[i].Some? ==> lo <= Vwap(bars)[i].value <= hi
  {
    var vol, tpv := Sum(Volumes(bars)[..i + 1]), Sum(PriceVolumes(bars)[..i + 1]);
    RunningSumsWithin(bars, i + 1, lo, hi);
    VwapAt(bars, i);
    if vol != 0.0 {
      DivBounds(tpv, vol, lo, hi);
    }
  }

  // ---------------------------------------------------------------- support and resistance

  /** The values of c on the bars where c equals `rolled` (both present), in
      bar order: `c[c == rolled].dropna()`. */
  function MatchingValues(c: Column, rolled: Column): (r: seq<real>)
    requires |c| == |rolled|
    ensures |r| <= |c|
  {
    if |c| == 0 then []
    else
      var n := |c| - 1;
      MatchingValues(c[..n], rolled[..n]) +
        (if c[n].Some? && rolled[n].Some? && c[n].value == rolled[n].value then [c[n].value] else [])
  }

  /** Every candidate level is a present value that equals its rolled extreme. */
  lemma {:induction false} MatchingValuesMembers(c: Column, rolled: Column, x: real)
    requires |c| == |rolled| && x in MatchingValues(c, rolled)
    ensures exists i :: 0 <= i < |c| && c[i] == Some(x) && rolled[i] == Some(x)
  {
    var n := |c| - 1;
    if x !in MatchingValues(c[..n], rolled[..n]) {
      assert c[n] == Some(x) && rolled[n] == Some(x);
    } else {
      MatchingValuesMembers(c[..n], rolled[..n], x);
      var i :| 0 <= i < n && c[..n][i] == Some(x) && rolled[..n][i] == Some(x);
      assert c[i] == Some(x) && rolled[i] == Some(x);
    }
  }

  datatype Levels = Levels(resistance: seq<real>, support: seq<real>)

  /** Centred rolling highs and lows, the bars where they equal their own
      centred rolling extreme, and the three highest resp. lowest of those values. */
  function ResistanceCandidates(bars: seq<Bar>, w: nat): seq<real>
    requires w >= 1
  {
    var highs := CenteredMax(Lift(Highs(bars)), w);
    MatchingValues(highs, CenteredMax(highs, w))
  }

  function SupportCandidates(bars: seq<Bar>, w: nat): seq<real>
    requires w >= 1
  {
    var lows := CenteredMin(Lift(Lows(bars)), w);
    MatchingValues(lows, CenteredMin(lows, w))
  }

  function SupportResistance(bars: seq<Bar>, w: nat): Levels
    requires w >= 1
  {
    Levels(TopK(ResistanceCandidates(bars, w), 3, true), TopK(SupportCandidates(bars, w), 3, false))
  }

  /** At most three resistance levels, highest first, none below a candidate
      left out; at most three support levels, lowest first, none above a
      candidate left out; each taken from the candidates as often as it occurs. */
  lemma SupportResistanceShape(bars: seq<Bar>, w: nat)
    requires w >= 1
    ensures var lv, rc, sc := SupportResistance(bars, w), ResistanceCandidates(bars, w), SupportCandidates(bars, w);
      |lv.resistance| <= 3 && |lv.support| <= 3 &&
      OrderedBy(lv.resistance, true) && OrderedBy(lv.support, false) &&
      multiset(lv.resistance) <= multiset(rc) && multiset(lv.support) <= multiset(sc) &&
      (forall x, y :: x in multiset(rc) - multiset(lv.resistance) && y in lv.resistance ==> x <= y) &&
      (forall x, y :: x in multiset(sc) - multiset(lv.support) && y in lv.support ==> y <= x)
  {
    var rc, sc := ResistanceCandidates(bars, w), SupportCandidates(bars, w);
    TopKSelects(rc, 3, true);
    TopKSelects(sc, 3, false);
    TopKOrdered(rc, 3, true);
    TopKOrdered(sc, 3, false);
    forall x, y | x in multiset(rc) - multiset(TopK(rc, 3, true)) && y in TopK(rc, 3, true)
      ensures x <= y
    {
      TopKBest(rc, 3, true, x, y);
    }
    forall x, y | x in multiset(sc) - multiset(TopK(sc, 3, false)) && y in TopK(sc, 3, false)
      ensures y <= x
    {
      TopKBest(sc, 3, false, x, y);
    }
  }
}
