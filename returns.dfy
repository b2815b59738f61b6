/** Returns, compounding and drawdown over a running peak, as the analyzer
    (src/core/market_analyzer.py) and the two backtest scripts
    (my-python-data-tool-main/) compute them with pandas. */
module Returns {
  import opened Series

  // ---------------------------------------------------------------- returns

  /** `Close.pct_change()`: missing on the first bar, and after a zero close
      (where pandas divides by zero). */
  function PctChange(xs: seq<real>): (r: Column)
    ensures |r| == |xs|
  {
    seq(|xs|, i requires 0 <= i < |xs| => if i == 0 || xs[i - 1] == 0.0 then None else Some(xs[i] / xs[i - 1] - 1.0))
  }

  /** `dropna()`: the present values, in order. */
  function DropNa(c: Column): (r: seq<real>)
    ensures |r| <= |c|
    decreases |c|
  {
    if c == [] then []
    else DropNa(c[..|c| - 1]) + (if c[|c| - 1].Some? then [c[|c| - 1].value] else [])
  }

  /** `Close.pct_change().dropna()` */
  function DailyReturns(xs: seq<real>): seq<real>
  {
    DropNa(PctChange(xs))
  }

  lemma {:induction false} DropNaAllSome(c: Column)
    requires AllSome(c)
    ensures DropNa(c) == Values(c)
    decreases |c|
  {
    if c != [] {
      var init := c[..|c| - 1];
      assert AllSome(init);
      DropNaAllSome(init);
      assert Values(c) == Values(init) + [c[|c| - 1].value];
    }
  }

  lemma {:induction false} DropNaOfMissingHead(c: Column)
    requires |c| > 0 && c[0].None?
    ensures DropNa(c) == DropNa(c[1..])
    decreases |c|
  {
    if |c| > 1 {
      var init := c[..|c| - 1];
      DropNaOfMissingHead(init);
      assert init[1..] == c[1..][..|c| - 2];
    }
  }

  /** With positive closes there is one return per bar after the first,
      each the relative change from the previous close. */
  lemma DailyReturnsOfPositive(xs: seq<real>)
    requires forall i :: 0 <= i < |xs| ==> xs[i] > 0.0
    ensures |xs| > 0 ==> |DailyReturns(xs)| == |xs| - 1
    ensures forall i :: 0 <= i < |DailyReturns(xs)| ==> DailyReturns(xs)[i] == xs[i + 1] / xs[i] - 1.0
  {
    var c := PctChange(xs);
    if |xs| > 0 {
      DropNaOfMissingHead(c);
      assert AllSome(c[1..]);
      DropNaAllSome(c[1..]);
    }
  }

  // ---------------------------------------------------------------- compounding

  /** The product of (1 + r) over rs: the growth of one unit. */
  function Growth(rs: seq<real>): real
    decreases |rs|
  {
    if rs == [] then 1.0 else Growth(rs[..|rs| - 1]) * (1.0 + rs[|rs| - 1])
  }

  /** `(1 + rs).cumprod()` */
  function CumGrowth(rs: seq<real>): (g: seq<real>)
    ensures |g| == |rs|
  {
    seq(|rs|, i requires 0 <= i < |rs| => Growth(rs[..i + 1]))
  }

  /** `(1 + c).cumprod() - 1` over a column with gaps: pandas skips missing
      values, so each present bar compounds every present return so far, and
      a missing bar stays missing. */
  function CumReturns(c: Column): (r: Column)
    ensures |r| == |c|
    ensures forall i :: 0 <= i < |c| ==> (r[i].Some? <==> c[i].Some?)
  {
    seq(|c|, i requires 0 <= i < |c| => if c[i].None? then None else Some(Growth(DropNa(c[..i + 1])) - 1.0))
  }

  lemma DivSelf(x: real)
    requires x != 0.0
    ensures x / x == 1.0
  {
  }

  lemma GrowthSnoc(rs: seq<real>, r: real)
    ensures Growth(rs + [r]) == Growth(rs) * (1.0 + r)
  {
    assert (rs + [r])[..|rs|] == rs;
  }

  lemma GrowthStep(x0: real, xi: real, x: real)
    requires x0 > 0.0 && xi > 0.0
    ensures (xi / x0) * (1.0 + (x / xi - 1.0)) == x / x0
  {
    assert 1.0 + (x / xi - 1.0) == x / xi;
    assert (xi / x0) * (x / xi) == (xi * x) / (x0 * xi);
  }

  lemma DailyReturnsSnoc(xs: seq<real>)
    requires |xs| >= 2 && xs[|xs| - 2] != 0.0
    ensures DailyReturns(xs) == DailyReturns(xs[..|xs| - 1]) + [xs[|xs| - 1] / xs[|xs| - 2] - 1.0]
  {
    var c := PctChange(xs);
    assert c[..|c| - 1] == PctChange(xs[..|xs| - 1]);
  }

  /** Compounding the daily returns of positive closes gives the ratio of
      the last close to the first. */
  lemma {:induction false} GrowthTelescopes(xs: seq<real>)
    requires |xs| > 0 && forall i :: 0 <= i < |xs| ==> xs[i] > 0.0
    ensures Growth(DailyReturns(xs)) == xs[|xs| - 1] / xs[0]
    decreases |xs|
  {
    if |xs| == 1 {
      var c := PctChange(xs);
      assert c == [None] && c[..0] == [];
      assert DailyReturns(xs) == [];
      DivSelf(xs[0]);
    } else {
      var init := xs[..|xs| - 1];
      GrowthTelescopes(init);
      DailyReturnsSnoc(xs);
      var x0, xi, x := xs[0], xs[|xs| - 2], xs[|xs| - 1];
      assert x0 == init[0] && xi == init[|init| - 1];
      GrowthSnoc(DailyReturns(init), x / xi - 1.0);
      GrowthStep(x0, xi, x);
    }
  }

  // ---------------------------------------------------------------- drawdown

  /** `(cum - peak) / peak`, missing where the peak is 0. */
  function Drawdown(cum: real, peak: real): Option<real>
  {
    if peak == 0.0 then None else Some((cum - peak) / peak)
  }

  /** `expanding(min_periods=1).max()` at bar i. */
  function Peak(g: seq<real>, i: int): real
    requires 0 <= i < |g|
  {
    SeqMax(g[..i + 1])
  }

  /** The drawdown of the compounded path against its running peak
      (`expanding().max()`), bar by bar. */
  function Drawdowns(rs: seq<real>): (r: Column)
    ensures |r| == |rs|
  {
    var g := CumGrowth(rs);
    seq(|g|, i requires 0 <= i < |g| => Drawdown(g[i], Peak(g, i)))
  }

  /** `Series.min()`: the least present value, missing when none is. */
  function MinPresent(c: Column): (r: Option<real>)
    ensures r.Some? <==> exists i :: 0 <= i < |c| && c[i].Some?
    ensures r.Some? ==> exists i :: 0 <= i < |c| && c[i] == r
    ensures r.Some? ==> forall i :: 0 <= i < |c| && c[i].Some? ==> r.value <= c[i].value
    decreases |c|
  {
    if c == [] then None
    else
      var m, x := MinPresent(c[..|c| - 1]), c[|c| - 1];
      assert forall i :: 0 <= i < |c| - 1 ==> c[..|c| - 1][i] == c[i];
      if m.None? then x
      else if x.Some? && x.value < m.value then x
      else m
  }

  /** `drawdown.min()` */
  function MaxDrawdown(rs: seq<real>): Option<real>
  {
    MinPresent(Drawdowns(rs))
  }

  lemma GrowthFirst(rs: seq<real>)
    requires |rs| > 0
    ensures CumGrowth(rs)[0] == 1.0 + rs[0]
  {
    var p := rs[..1];
    assert p[..0] == [] && p[0] == rs[0];
    assert Growth(p) == Growth(p[..0]) * (1.0 + p[0]);
  }

  /** Once the first return exceeds -100%, the peak stays positive and no
      bar's drawdown is positive. */
  lemma DrawdownsNonPositive(rs: seq<real>, i: int)
    requires |rs| > 0 && rs[0] > -1.0 && 0 <= i < |rs|
    ensures Drawdowns(rs)[i].Some? && Drawdowns(rs)[i].value <= 0.0
  {
    var g := CumGrowth(rs);
    var w := g[..i + 1];
    var peak := SeqMax(w);
    GrowthFirst(rs);
    assert 0.0 < g[0] == w[0] <= peak;
    assert g[i] == w[i] <= peak;
    DrawdownsAt(rs, i);
    DrawdownBelowPeak(g[i], peak);
  }

  lemma DrawdownsAt(rs: seq<real>, i: int)
    requires 0 <= i < |rs|
    ensures Drawdowns(rs)[i] == Drawdown(CumGrowth(rs)[i], Peak(CumGrowth(rs), i))
  {
  }

  lemma DrawdownBelowPeak(cum: real, peak: real)
    requires peak > 0.0 && cum <= peak
    ensures Drawdown(cum, peak).Some? && Drawdown(cum, peak).value <= 0.0
  {
  }

  lemma DrawdownAtPeak(cum: real, peak: real)
    requires peak == cum && cum > 0.0
    ensures Drawdown(cum, peak) == Some(0.0)
  {
  }

  /** Max drawdown is never positive. */
  lemma MaxDrawdownNonPositive(rs: seq<real>)
    requires |rs| > 0 && rs[0] > -1.0
    ensures MaxDrawdown(rs).Some? && MaxDrawdown(rs).value <= 0.0
  {
    DrawdownsNonPositive(rs, 0);
    var j :| 0 <= j < |rs| && Drawdowns(rs)[j] == MaxDrawdown(rs);
    DrawdownsNonPositive(rs, j);
  }

  lemma {:induction false} GrowthPositiveMonotone(rs: seq<real>, n: nat)
    requires n <= |rs| && forall i :: 0 <= i < |rs| ==> rs[i] >= 0.0
    ensures Growth(rs[..n]) >= 1.0
    ensures n > 0 ==> Growth(rs[..n]) >= Growth(rs[..n - 1])
  {
    if n > 0 {
      assert rs[..n][..n - 1] == rs[..n - 1];
      GrowthPositiveMonotone(rs, n - 1);
      var g := Growth(rs[..n - 1]);
      assert Growth(rs[..n]) == g * (1.0 + rs[n - 1]);
      MulAtLeast(g, 1.0 + rs[n - 1]);
    } else {
      assert rs[..0] == [];
    }
  }

  lemma MulAtLeast(g: real, f: real)
    requires g >= 1.0 && f >= 1.0
    ensures g * f >= g && g * f >= 1.0
  {
    assert g * f - g == g * (f - 1.0);
  }

  lemma {:induction false} CumGrowthNondecreasing(rs: seq<real>, j: int, i: int)
    requires 0 <= j <= i < |rs| && forall k :: 0 <= k < |rs| ==> rs[k] >= 0.0
    ensures CumGrowth(rs)[j] <= CumGrowth(rs)[i]
    decreases i - j
  {
    if j < i {
      CumGrowthNondecreasing(rs, j, i - 1);
      GrowthPositiveMonotone(rs, i + 1);
    }
  }

  /** A path without losses has no drawdown: its peak is always the current value. */
  lemma MaxDrawdownOfGains(rs: seq<real>)
    requires |rs| > 0 && forall k :: 0 <= k < |rs| ==> rs[k] >= 0.0
    ensures MaxDrawdown(rs) == Some(0.0)
  {
    var d := Drawdowns(rs);
    forall i | 0 <= i < |rs|
      ensures d[i] == Some(0.0)
    {
      DrawdownOfGainsAt(rs, i);
    }
    assert d[0].Some?;
  }

  lemma DrawdownOfGainsAt(rs: seq<real>, i: int)
    requires 0 <= i < |rs| && forall k :: 0 <= k < |rs| ==> rs[k] >= 0.0
    ensures Drawdowns(rs)[i] == Some(0.0)
  {
    var g := CumGrowth(rs);
    var w := g[..i + 1];
    var j :| 0 <= j < i + 1 && w[j] == SeqMax(w);
    CumGrowthNondecreasing(rs, j, i);
    assert w[i] == g[i] && w[j] == g[j];
    GrowthPositiveMonotone(rs, i + 1);
    DrawdownAtPeak(g[i], SeqMax(w));
  }

  /** A first return of -100% wipes the path out: every later growth is 0. */
  lemma {:induction false} GrowthFromZero(rs: seq<real>, n: nat)
    requires 0 < n <= |rs| && 1.0 + rs[0] == 0.0
    ensures Growth(rs[..n]) == 0.0
  {
    var p := rs[..n];
    assert p[..n - 1] == rs[..n - 1];
    if n > 1 {
      GrowthFromZero(rs, n - 1);
    } else {
      assert p[..0] == [];
    }
  }

  /** Whatever the returns, a present max drawdown is never positive: the
      first bar is its own peak, and a path starting at 0 has no drawdown at all. */
  lemma MaxDrawdownAtMostZero(rs: seq<real>)
    ensures MaxDrawdown(rs).Some? ==> MaxDrawdown(rs).value <= 0.0
  {
    if |rs| > 0 {
      var g, d := CumGrowth(rs), Drawdowns(rs);
      GrowthFirst(rs);
      if g[0] != 0.0 {
        assert g[..1] == [g[0]];
        assert d[0] == Drawdown(g[0], g[0]);
        DivSelfZero(g[0]);
      } else {
        forall i | 0 <= i < |rs|
          ensures d[i].None?
        {
          var w := g[..i + 1];
          forall k | 0 <= k < |w|
            ensures w[k] == 0.0
          {
            GrowthFromZero(rs, k + 1);
          }
          assert SeqMax(w) == 0.0;
        }
      }
    }
  }

  lemma DivSelfZero(x: real)
    requires x != 0.0
    ensures Drawdown(x, x) == Some(0.0)
  {
  }
}
