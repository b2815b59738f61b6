/** The vectorised backtest steps the two scripts under my-python-data-tool-main/
    share: a 0/1 signal, its first difference as the position, next-bar
    returns, their compounding, and what the scripts report about them. */
module Backtest {
  import opened Series
  import opened Returns
  import opened Indicators

  // ---------------------------------------------------------------- column steps

  /** `s.diff()` over a column without gaps. */
  function Diff(s: seq<real>): (r: Column)
    ensures |r| == |s|
  {
    seq(|s|, i requires 0 <= i < |s| => if i == 0 then None else Some(s[i] - s[i - 1]))
  }

  /** Element-wise product; missing where either factor is. */
  function Mul(a: Column, b: Column): (r: Column)
    requires |a| == |b|
    ensures |r| == |a|
  {
    seq(|a|, i requires 0 <= i < |a| =>
      if a[i].Some? && b[i].Some? then Some(a[i].value * b[i].value) else None)
  }

  /** Element-wise difference of two columns without gaps. */
  function Minus(a: seq<real>, b: seq<real>): (r: seq<real>)
    requires |a| == |b|
    ensures |r| == |a|
  {
    seq(|a|, i requires 0 <= i < |a| => a[i] - b[i])
  }

  /** A column of one constant, as `data['Signal'] = 0.0` makes it. */
  function Constant(n: nat, v: real): (r: seq<real>)
    ensures |r| == n && forall i :: 0 <= i < n ==> r[i] == v
  {
    seq(n, i => v)
  }

  /** `data.loc[mask, col] = v`: overwrite the masked bars. */
  function Masked(s: seq<real>, mask: seq<bool>, v: real): (r: seq<real>)
    requires |mask| == |s|
    ensures |r| == |s|
  {
    seq(|s|, i requires 0 <= i < |s| => if mask[i] then v else s[i])
  }

  /** `a > b` element-wise; a comparison with a missing value is false. */
  function GtMask(a: Column, b: Column): (m: seq<bool>)
    requires |a| == |b|
    ensures |m| == |a|
  {
    seq(|a|, i requires 0 <= i < |a| => Gt(a[i], b[i]))
  }

  /** `(mask).astype(float)` */
  function Flags(mask: seq<bool>): (r: seq<real>)
    ensures |r| == |mask|
  {
    seq(|mask|, i requires 0 <= i < |mask| => if mask[i] then 1.0 else 0.0)
  }

  predicate Binary(s: seq<real>)
  {
    forall i :: 0 <= i < |s| ==> s[i] == 0.0 || s[i] == 1.0
  }

  // ---------------------------------------------------------------- positions

  /** Of a 0/1 signal, the position is missing on the first bar only; after it
      the position is +1 on the bar the signal switches on, -1 on the bar it
      switches off, and 0 otherwise. */
  lemma PositionValues(s: seq<real>, i: int)
    requires Binary(s) && 0 <= i < |s|
    ensures Diff(s)[i].None? <==> i == 0
    ensures i > 0 ==> Diff(s)[i] == Some(-1.0) || Diff(s)[i] == Some(0.0) || Diff(s)[i] == Some(1.0)
    ensures i > 0 ==> (Diff(s)[i] == Some(1.0) <==> s[i - 1] == 0.0 && s[i] == 1.0)
    ensures i > 0 ==> (Diff(s)[i] == Some(-1.0) <==> s[i - 1] == 1.0 && s[i] == 0.0)
  {
  }

  /** Where the position is 0 from bar i + 1 to bar j, the signal holds its value. */
  lemma {:induction false} SignalHolds(s: seq<real>, i: int, j: int)
    requires 0 <= i <= j < |s|
    requires forall k :: i < k <= j ==> Diff(s)[k] == Some(0.0)
    ensures s[j] == s[i]
    decreases j - i
  {
    if i < j {
      SignalHolds(s, i, j - 1);
      assert Diff(s)[j] == Some(0.0);
    }
  }

  /** Two successive nonzero positions have opposite signs: a buy is always
      followed by a sell and a sell by a buy. */
  lemma PositionsAlternate(s: seq<real>, i: int, j: int)
    requires Binary(s) && 0 < i < j < |s|
    requires Diff(s)[i] != Some(0.0) && Diff(s)[j] != Some(0.0)
    requires forall k :: i < k < j ==> Diff(s)[k] == Some(0.0)
    ensures Diff(s)[i] == Some(1.0) || Diff(s)[i] == Some(-1.0)
    ensures Diff(s)[j].value == -Diff(s)[i].value
  {
    SignalHolds(s, i, j - 1);
  }

  // ---------------------------------------------------------------- returns of a strategy

  /** `Daily Return.shift(-1) * Position`: each bar earns the next bar's return
      times the position taken on it. */
  function StrategyReturns(dailyReturn: Column, position: Column): (r: Column)
    requires |dailyReturn| == |position|
    ensures |r| == |dailyReturn|
  {
    Mul(Shift(dailyReturn, -1), position)
  }

  /** Missing on the first and the last bar, and nonzero only on a bar where
      the signal switches. */
  lemma StrategyReturnsAt(dailyReturn: Column, s: seq<real>, i: int)
    requires |dailyReturn| == |s| && Binary(s) && 0 <= i < |s|
    ensures StrategyReturns(dailyReturn, Diff(s))[i].Some? <==> 0 < i < |s| - 1 && dailyReturn[i + 1].Some?
    ensures StrategyReturns(dailyReturn, Diff(s))[i].Some? ==>
      StrategyReturns(dailyReturn, Diff(s))[i].value == dailyReturn[i + 1].value * Diff(s)[i].value
    ensures StrategyReturns(dailyReturn, Diff(s))[i].Some? && StrategyReturns(dailyReturn, Diff(s))[i].value != 0.0 ==>
      Diff(s)[i] == Some(1.0) || Diff(s)[i] == Some(-1.0)
  {
    PositionValues(s, i);
  }

  /** `Position.where(Position == 1, 0)`: buy bars keep 1, every other bar
      (a missing position included) becomes 0. */
  function BuyBars(position: Column): (r: Column)
    ensures |r| == |position|
  {
    seq(|position|, i requires 0 <= i < |position| => if position[i] == Some(1.0) then Some(1.0) else Some(0.0))
  }

  /** Long-only returns: the next bar's return on a buy bar, 0 on every other
      bar, missing only where the next bar's return is. */
  lemma LongOnlyReturnsAt(dailyReturn: Column, position: Column, i: int)
    requires |dailyReturn| == |position| && 0 <= i < |position|
    ensures StrategyReturns(dailyReturn, BuyBars(position))[i] ==
      if i + 1 == |dailyReturn| || dailyReturn[i + 1].None? then None
      else if position[i] == Some(1.0) then dailyReturn[i + 1]
      else Some(0.0)
  {
  }

  /** Shifting a column whose first bar is missing keeps its present values. */
  lemma {:induction false} DropNaOfShift(c: Column)
    requires |c| > 0 && c[0].None?
    ensures DropNa(Shift(c, -1)) == DropNa(c)
  {
    var sh := Shift(c, -1);
    assert sh == c[1..] + [None];
    assert sh[..|sh| - 1] == c[1..];
    DropNaOfMissingHead(c);
  }

  // ---------------------------------------------------------------- totals

  /** The total return of a column of returns: all present returns compounded,
      i.e. the last present value of `(1 + c).cumprod() - 1`, and 0 when no
      return is present. */
  function CompoundedTotal(c: Column): real
  {
    Growth(DropNa(c)) - 1.0
  }

  lemma {:induction false} DropNaOfMissingTail(c: Column, n: nat)
    requires n <= |c| && forall k :: n <= k < |c| ==> c[k].None?
    ensures DropNa(c[..n]) == DropNa(c)
    decreases |c| - n
  {
    if n < |c| {
      DropNaOfMissingTail(c, n + 1);
      var p := c[..n + 1];
      assert p[..n] == c[..n];
    } else {
      assert c[..n] == c;
    }
  }

  /** CompoundedTotal is the cumulative return at the last bar that has one,
      and 0 when there is none. */
  lemma CompoundedTotalIsLastCumulative(c: Column, j: int)
    requires 0 <= j < |c| && c[j].Some? && forall k :: j < k < |c| ==> c[k].None?
    ensures CumReturns(c)[j] == Some(CompoundedTotal(c))
  {
    DropNaOfMissingTail(c, j + 1);
  }

  lemma CompoundedTotalOfNothing(c: Column)
    requires forall k :: 0 <= k < |c| ==> c[k].None?
    ensures CompoundedTotal(c) == 0.0
  {
    DropNaOfMissingTail(c, 0);
    assert c[..0] == [];
  }

  /** With positive closes, buy and hold compounds to the ratio of the last
      close to the first. */
  lemma BuyAndHoldTotal(close: seq<real>)
    requires |close| > 0 && forall i :: 0 <= i < |close| ==> close[i] > 0.0
    ensures CompoundedTotal(Shift(PctChange(close), -1)) == close[|close| - 1] / close[0] - 1.0
  {
    DropNaOfShift(PctChange(close));
    GrowthTelescopes(close);
  }

  // ---------------------------------------------------------------- reported metrics

  /** `drawdown.min()` with the fallback to 0.0 when it is missing. */
  function ReportedDrawdown(rs: seq<real>): (r: real)
    ensures r <= 0.0
    ensures MaxDrawdown(rs).None? ==> r == 0.0
    ensures MaxDrawdown(rs).Some? ==> r == MaxDrawdown(rs).value
  {
    MaxDrawdownAtMostZero(rs);
    match MaxDrawdown(rs)
    case None => 0.0
    case Some(v) => v
  }
}
