/** The `MarketDataAnalyzer` of src/core/market_analyzer.py: per-symbol
    summaries, risk and regime rules, benchmark correlation, performance
    streaks and the portfolio block, over the frames the loader returned. */
module MarketAnalyzer {
  import opened Series
  import opened Oracles
  import opened Returns
  import opened Indicators
  import opened IndicatorFrame
  import TechnicalIndicators

  // ---------------------------------------------------------------- selections

  /** `returns[returns <= v]` */
  function AtMost(xs: seq<real>, v: real): (r: seq<real>)
    ensures forall k :: 0 <= k < |r| ==> r[k] <= v
    ensures forall k :: 0 <= k < |xs| && xs[k] <= v ==> xs[k] in r
    decreases |xs|
  {
    if xs == [] then []
    else
      var init := AtMost(xs[..|xs| - 1], v);
      assert forall k :: 0 <= k < |xs| - 1 ==> xs[..|xs| - 1][k] == xs[k];
      init + (if xs[|xs| - 1] <= v then [xs[|xs| - 1]] else [])
  }

  /** `returns[returns < 0]` */
  function Negatives(xs: seq<real>): (r: seq<real>)
    ensures forall k :: 0 <= k < |r| ==> r[k] < 0.0
    ensures forall k :: 0 <= k < |xs| && xs[k] < 0.0 ==> xs[k] in r
    decreases |xs|
  {
    if xs == [] then []
    else
      var init := Negatives(xs[..|xs| - 1]);
      assert forall k :: 0 <= k < |xs| - 1 ==> xs[..|xs| - 1][k] == xs[k];
      init + (if xs[|xs| - 1] < 0.0 then [xs[|xs| - 1]] else [])
  }

  function Squares(xs: seq<real>): (r: seq<real>)
    ensures |r| == |xs|
  {
    seq(|xs|, k requires 0 <= k < |xs| => xs[k] * xs[k])
  }

  /** `mean()` of a selection, NaN (missing) when it is empty. */
  function MeanOrMissing(xs: seq<real>): Option<real>
  {
    if xs == [] then None else Some(Mean(xs))
  }

  /** `s.iloc[-k:]`: the last k entries, or all of them when there are fewer. */
  function Tail(xs: seq<real>, k: nat): (r: seq<real>)
    ensures |r| == if |xs| < k then |xs| else k
  {
    if |xs| < k then xs else xs[|xs| - k..]
  }

  // ---------------------------------------------------------------- risk metrics

  datatype RiskMetrics = RiskMetrics(
    var95: real, var99: real, expectedShortfall: Option<real>, maxDrawdown: Option<real>,
    sharpeRatio: real, sortinoRatio: real, calmarRatio: Option<real>, beta: real, alpha: real)

  const NoRisk := RiskMetrics(0.0, 0.0, Some(0.0), Some(0.0), 0.0, 0.0, Some(0.0), 0.0, 0.0)

  /** The Sortino ratio's downside deviation: 0 without losing days. */
  function DownsideDeviation(num: Numerics, rs: seq<real>): real
  {
    var neg := Negatives(rs);
    if |neg| > 0 then num.sqrt(Mean(Squares(neg))) else 0.0
  }

  /** `_calculate_risk_metrics`: all nine fields zero below 30 returns;
      otherwise historical VaR, expected shortfall, maximum drawdown and
      the ratios, with beta and alpha as placeholders. A missing field is
      one pandas would leave NaN. */
  function CalculateRiskMetrics(num: Numerics, closes: seq<real>): (m: RiskMetrics)
    ensures |DailyReturns(closes)| < 30 ==> m == NoRisk
    ensures |DailyReturns(closes)| >= 30 ==>
      var rs := DailyReturns(closes);
      m.beta == 1.0 && m.alpha == 252.0 * Mean(rs) &&
      m.maxDrawdown == MaxDrawdown(rs) &&
      (m.maxDrawdown == Some(0.0) ==> m.calmarRatio == Some(0.0)) &&
      (m.maxDrawdown.None? ==> m.calmarRatio.None?) &&
      (num.std(rs) == 0.0 ==> m.sharpeRatio == 0.0) &&
      (Negatives(rs) == [] ==> m.sortinoRatio == 0.0)
  {
    var rs := DailyReturns(closes);
    if |rs| < 30 then NoRisk
    else
      var mean := Mean(rs);
      var var95 := num.percentile(rs, 5.0);
      var mdd := MaxDrawdown(rs);
      var sd := num.std(rs);
      var dd := DownsideDeviation(num, rs);
      RiskMetrics(
        var95,
        num.percentile(rs, 1.0),
        MeanOrMissing(AtMost(rs, var95)),
        mdd,
        if sd != 0.0 then mean / sd * num.sqrt(252.0) else 0.0,
        if dd != 0.0 then mean / dd * num.sqrt(252.0) else 0.0,
        match mdd
        case None => None
        case Some(d) => if d != 0.0 then Some(mean * 252.0 / Abs(d)) else Some(0.0),
        1.0,
        mean * 252.0)
  }

  /** The expected shortfall averages the returns at or below VaR 95, so it never exceeds it. */
  lemma ShortfallBelowVar(num: Numerics, closes: seq<real>)
    ensures var m := CalculateRiskMetrics(num, closes);
      m.expectedShortfall.Some? ==> m.expectedShortfall.value <= m.var95
  {
    var rs := DailyReturns(closes);
    if |rs| >= 30 {
      var tail := AtMost(rs, num.percentile(rs, 5.0));
      if tail != [] {
        MeanBounds(tail, SeqMin(tail), num.percentile(rs, 5.0));
      }
    }
  }

  lemma DailyReturnsAboveMinusOne(closes: seq<real>)
    requires forall i :: 0 <= i < |closes| ==> closes[i] > 0.0
    ensures forall i :: 0 <= i < |DailyReturns(closes)| ==> DailyReturns(closes)[i] > -1.0
  {
    DailyReturnsOfPositive(closes);
    forall i | 0 <= i < |DailyReturns(closes)|
      ensures DailyReturns(closes)[i] > -1.0
    {
      RatioPositive(closes[i + 1], closes[i]);
    }
  }

  lemma RatioPositive(x: real, y: real)
    requires x > 0.0 && y > 0.0
    ensures x / y - 1.0 > -1.0
  {
  }

  /** With positive closes the maximum drawdown is present and never positive. */
  lemma RiskDrawdownNonPositive(num: Numerics, closes: seq<real>)
    requires forall i :: 0 <= i < |closes| ==> closes[i] > 0.0
    requires |DailyReturns(closes)| >= 30
    ensures CalculateRiskMetrics(num, closes).maxDrawdown.Some?
    ensures CalculateRiskMetrics(num, closes).maxDrawdown.value <= 0.0
  {
    DailyReturnsAboveMinusOne(closes);
    MaxDrawdownNonPositive(DailyReturns(closes));
  }

  // ---------------------------------------------------------------- market regime

  datatype RegimeLabel = HIGH_VOLATILITY | LOW_VOLATILITY | TRENDING | MEAN_REVERTING | NORMAL | UNKNOWN

  datatype MarketRegime = MarketRegime(regime: RegimeLabel, volatility: real, trendStrength: real, meanReversion: real)

  /** The regime rule: the first matching test wins. */
  function Classify(volatility: real, trend: real, hurst: real): (r: RegimeLabel)
    ensures r != UNKNOWN
    ensures r == HIGH_VOLATILITY <==> volatility > 0.3
    ensures r == LOW_VOLATILITY <==> volatility < 0.1
    ensures r == TRENDING <==> 0.1 <= volatility <= 0.3 && trend > 0.5
    ensures r == MEAN_REVERTING <==> 0.1 <= volatility <= 0.3 && trend <= 0.5 && hurst < 0.5
    ensures r == RegimeLabel.NORMAL <==> 0.1 <= volatility <= 0.3 && trend <= 0.5 && hurst >= 0.5
  {
    if volatility > 0.3 then HIGH_VOLATILITY
    else if volatility < 0.1 then LOW_VOLATILITY
    else if trend > 0.5 then TRENDING
    else if hurst < 0.5 then MEAN_REVERTING
    else RegimeLabel.NORMAL
  }

  /** `_detect_market_regime`: UNKNOWN with zero measures below 20 returns;
      otherwise the annualised volatility of the last 20 returns, the
      regression slope of the last 20 closes relative to the last close,
      and the Hurst estimate of the last 100 returns. */
  function DetectMarketRegime(num: Numerics, closes: seq<real>): (m: MarketRegime)
    requires forall i :: 0 <= i < |closes| ==> closes[i] > 0.0
    ensures |DailyReturns(closes)| < 20 <==> m == MarketRegime(UNKNOWN, 0.0, 0.0, 0.0)
    ensures |DailyReturns(closes)| >= 20 ==>
      m.regime == Classify(m.volatility, m.trendStrength, m.meanReversion) &&
      m.trendStrength >= 0.0 &&
      (Sound(num) ==> m.volatility >= 0.0)
  {
    var rs := DailyReturns(closes);
    if |rs| < 20 then MarketRegime(UNKNOWN, 0.0, 0.0, 0.0)
    else
      var volatility := num.std(Tail(rs, 20)) * num.sqrt(252.0);
      var trend := Abs(num.slope(Tail(closes, 20))) / closes[|closes| - 1] * 100.0;
      var hurst := num.hurst(Tail(rs, 100));
      MarketRegime(Classify(volatility, trend, hurst), volatility, trend, hurst)
  }

  // ---------------------------------------------------------------- beta and correlation

  function Covariance(pairs: seq<(real, real)>): real
    requires |pairs| >= 2
  {
    var xs := seq(|pairs|, k requires 0 <= k < |pairs| => pairs[k].0);
    var ys := seq(|pairs|, k requires 0 <= k < |pairs| => pairs[k].1);
    var mx, my := Mean(xs), Mean(ys);
    Sum(seq(|pairs|, k requires 0 <= k < |pairs| => (xs[k] - mx) * (ys[k] - my))) / ((|pairs| - 1) as real)
  }

  function Variance(ys: seq<real>): real
    requires |ys| >= 2
  {
    var my := Mean(ys);
    Sum(seq(|ys|, k requires 0 <= k < |ys| => (ys[k] - my) * (ys[k] - my))) / ((|ys| - 1) as real)
  }

  function Seconds(pairs: seq<(real, real)>): (ys: seq<real>)
    ensures |ys| == |pairs| && forall k :: 0 <= k < |pairs| ==> ys[k] == pairs[k].1
  {
    seq(|pairs|, k requires 0 <= k < |pairs| => pairs[k].1)
  }

  function Firsts(pairs: seq<(real, real)>): (xs: seq<real>)
    ensures |xs| == |pairs| && forall k :: 0 <= k < |pairs| ==> xs[k] == pairs[k].0
  {
    seq(|pairs|, k requires 0 <= k < |pairs| => pairs[k].0)
  }

  /** `_calculate_beta` over the date-aligned (return, benchmark return)
      pairs: 1.0 below two points or against a constant benchmark (whose
      standard deviation, the square root of its variance, is 0). */
  function CalculateBeta(pairs: seq<(real, real)>): real
  {
    if |pairs| < 2 || Variance(Seconds(pairs)) == 0.0 then 1.0
    else Covariance(pairs) / Variance(Seconds(pairs))
  }

  /** A series measured against itself has beta 1, on either branch. */
  lemma BetaOfItself(pairs: seq<(real, real)>)
    requires forall k :: 0 <= k < |pairs| ==> pairs[k].0 == pairs[k].1
    ensures CalculateBeta(pairs) == 1.0
  {
    if |pairs| >= 2 {
      assert Firsts(pairs) == Seconds(pairs);
      var ys := Seconds(pairs);
      assert seq(|pairs|, k requires 0 <= k < |pairs| => pairs[k].0) == ys;
      assert seq(|pairs|, k requires 0 <= k < |pairs| => pairs[k].1) == ys;
      assert Covariance(pairs) == Variance(ys);
    }
  }

  // ---------------------------------------------------------------- dated returns

  /** `Close.pct_change().dropna()` with its index: (day, return) for every
      bar after the first whose previous close is not zero. */
  function DatedReturns(bars: seq<Bar>): (r: seq<(int, real)>)
    ensures |r| <= |bars|
    decreases |bars|
  {
    if |bars| < 2 then []
    else
      var n := |bars|;
      DatedReturns(bars[..n - 1]) +
        (if bars[n - 2].close == 0.0 then [] else [(bars[n - 1].day, bars[n - 1].close / bars[n - 2].close - 1.0)])
  }

  function Days(dr: seq<(int, real)>): set<int>
  {
    set k | 0 <= k < |dr| :: dr[k].0
  }

  /** `series[day]` for a day in the index; the first entry when it repeats. */
  function Lookup(dr: seq<(int, real)>, d: int): (r: Option<real>)
    ensures r.Some? <==> d in Days(dr)
    ensures r.Some? ==> exists k :: 0 <= k < |dr| && dr[k] == (d, r.value)
    decreases |dr|
  {
    if dr == [] then None
    else if dr[0].0 == d then Some(dr[0].1)
    else
      var r := Lookup(dr[1..], d);
      assert Days(dr) == {dr[0].0} + Days(dr[1..]) by {
        forall x | x in Days(dr) ensures x in {dr[0].0} + Days(dr[1..]) {
          var k :| 0 <= k < |dr| && dr[k].0 == x;
          if k > 0 { assert dr[1..][k - 1] == dr[k]; }
        }
        forall x | x in Days(dr[1..]) ensures x in Days(dr) {
          var k :| 0 <= k < |dr| - 1 && dr[1..][k].0 == x;
          assert dr[k + 1].0 == x;
        }
      }
      assert r.Some? ==> exists k :: 0 <= k < |dr| - 1 && dr[1..][k] == (d, r.value);
      assert forall k :: 0 <= k < |dr| - 1 ==> dr[1..][k] == dr[k + 1];
      r
  }

  /** `returns[common_dates]` against `benchmark_returns[common_dates]`:
      the data's returns on the common days, in its order, each with the
      benchmark's return on the same day. */
  function AlignedPairs(dr: seq<(int, real)>, br: seq<(int, real)>, common: set<int>): (r: seq<(real, real)>)
    requires common <= Days(br)
    decreases |dr|
  {
    if dr == [] then []
    else
      var last := dr[|dr| - 1];
      AlignedPairs(dr[..|dr| - 1], br, common) +
        (if last.0 in common then [(last.1, Lookup(br, last.0).value)] else [])
  }

  /** `returns.index.intersection(benchmark_returns.index)` */
  function CommonDays(data: seq<Bar>, benchmark: seq<Bar>): set<int>
  {
    Days(DatedReturns(data)) * Days(DatedReturns(benchmark))
  }

  function BenchmarkPairs(data: seq<Bar>, benchmark: seq<Bar>): seq<(real, real)>
  {
    AlignedPairs(DatedReturns(data), DatedReturns(benchmark), CommonDays(data, benchmark))
  }

  datatype Correlations = NoCorrelations | Correlations(correlationWithBenchmark: real, beta: real, rSquared: real)

  /** `_calculate_correlations`: nothing for an empty benchmark, frames of
      different lengths or fewer than 10 common return dates; otherwise the
      correlation, the beta and the square of the correlation. */
  function CalculateCorrelations(num: Numerics, data: seq<Bar>, benchmark: seq<Bar>): (r: Correlations)
    ensures r.NoCorrelations? <==> |benchmark| == 0 || |data| != |benchmark| || |CommonDays(data, benchmark)| < 10
    ensures r.Correlations? ==> r.rSquared == r.correlationWithBenchmark * r.correlationWithBenchmark
    ensures r.Correlations? ==> r.beta == CalculateBeta(BenchmarkPairs(data, benchmark))
  {
    if |benchmark| == 0 || |data| != |benchmark| || |CommonDays(data, benchmark)| < 10 then NoCorrelations
    else
      var pairs := BenchmarkPairs(data, benchmark);
      var correlation := num.corr(Firsts(pairs), Seconds(pairs));
      Correlations(correlation, CalculateBeta(pairs), correlation * correlation)
  }

  /** No day occurs twice in the index. */
  predicate DistinctDays(dr: seq<(int, real)>)
  {
    forall i, j :: 0 <= i < j < |dr| ==> dr[i].0 != dr[j].0
  }

  lemma LookupDistinct(dr: seq<(int, real)>, k: int)
    requires DistinctDays(dr) && 0 <= k < |dr|
    ensures Lookup(dr, dr[k].0) == Some(dr[k].1)
  {
    var r := Lookup(dr, dr[k].0);
    var k' :| 0 <= k' < |dr| && dr[k'] == (dr[k].0, r.value);
    assert k' == k;
  }

  lemma {:induction false} AlignedPairsMatch(dr: seq<(int, real)>, br: seq<(int, real)>, common: set<int>)
    requires common <= Days(br)
    requires forall k :: 0 <= k < |dr| && dr[k].0 in common ==> Lookup(br, dr[k].0) == Some(dr[k].1)
    ensures forall k :: 0 <= k < |AlignedPairs(dr, br, common)| ==>
      AlignedPairs(dr, br, common)[k].0 == AlignedPairs(dr, br, common)[k].1
    decreases |dr|
  {
    if dr != [] {
      var init := dr[..|dr| - 1];
      assert forall k :: 0 <= k < |init| ==> init[k] == dr[k];
      AlignedPairsMatch(init, br, common);
    }
  }

  /** A symbol measured against itself (a frame without repeated days) is
      perfectly correlated in beta: whenever the gates let it through, its
      beta is 1. */
  lemma CorrelationsOfItself(num: Numerics, data: seq<Bar>)
    requires DistinctDays(DatedReturns(data))
    ensures CalculateCorrelations(num, data, data).Correlations? ==> CalculateCorrelations(num, data, data).beta == 1.0
  {
    var dr := DatedReturns(data);
    forall k | 0 <= k < |dr| && dr[k].0 in CommonDays(data, data)
      ensures Lookup(dr, dr[k].0) == Some(dr[k].1)
    {
      LookupDistinct(dr, k);
    }
    AlignedPairsMatch(dr, dr, CommonDays(data, data));
    BetaOfItself(BenchmarkPairs(data, data));
  }

  // ---------------------------------------------------------------- streaks

  function Winning(rs: seq<real>): (bs: seq<bool>)
    ensures |bs| == |rs| && forall k :: 0 <= k < |rs| ==> (bs[k] <==> rs[k] > 0.0)
  {
    seq(|rs|, k requires 0 <= k < |rs| => rs[k] > 0.0)
  }

  function Losing(rs: seq<real>): (bs: seq<bool>)
    ensures |bs| == |rs| && forall k :: 0 <= k < |rs| ==> (bs[k] <==> rs[k] < 0.0)
  {
    seq(|rs|, k requires 0 <= k < |rs| => rs[k] < 0.0)
  }

  /** bs[lo..hi] holds only true. */
  predicate AllTrue(bs: seq<bool>, lo: int, hi: int)
    requires 0 <= lo <= hi <= |bs|
  {
    forall k :: lo <= k < hi ==> bs[k]
  }

  /** The length of the run of true at the end of bs. */
  function TrailingRun(bs: seq<bool>): (t: nat)
    ensures t <= |bs|
    decreases |bs|
  {
    if bs == [] || !bs[|bs| - 1] then 0 else TrailingRun(bs[..|bs| - 1]) + 1
  }

  function MaxNat(a: nat, b: nat): nat { if a >= b then a else b }

  /** The length of the longest run of true in bs. */
  function LongestRun(bs: seq<bool>): nat
    decreases |bs|
  {
    if bs == [] then 0 else MaxNat(LongestRun(bs[..|bs| - 1]), TrailingRun(bs))
  }

  lemma {:induction false} TrailingRunShape(bs: seq<bool>)
    ensures AllTrue(bs, |bs| - TrailingRun(bs), |bs|)
    ensures TrailingRun(bs) < |bs| ==> !bs[|bs| - 1 - TrailingRun(bs)]
    decreases |bs|
  {
    if bs != [] && bs[|bs| - 1] {
      var init := bs[..|bs| - 1];
      TrailingRunShape(init);
    }
  }

  /** Every run of true is at most the longest one. */
  lemma {:induction false} LongestRunBounds(bs: seq<bool>, lo: int, hi: int)
    requires 0 <= lo <= hi <= |bs| && AllTrue(bs, lo, hi)
    ensures hi - lo <= LongestRun(bs)
    decreases |bs|
  {
    if bs != [] {
      var init := bs[..|bs| - 1];
      if hi < |bs| {
        assert AllTrue(init, lo, hi);
        LongestRunBounds(init, lo, hi);
      } else {
        TrailingRunShape(bs);
      }
    }
  }

  /** The longest run is a run of bs. */
  lemma {:induction false} LongestRunAttained(bs: seq<bool>) returns (lo: int)
    ensures 0 <= lo && lo + LongestRun(bs) <= |bs| && AllTrue(bs, lo, lo + LongestRun(bs))
    decreases |bs|
  {
    if bs == [] {
      lo := 0;
    } else {
      var init := bs[..|bs| - 1];
      if LongestRun(init) >= TrailingRun(bs) {
        lo := LongestRunAttained(init);
        assert forall k :: lo <= k < lo + LongestRun(init) ==> init[k] == bs[k];
      } else {
        TrailingRunShape(bs);
        lo := |bs| - TrailingRun(bs);
      }
    }
  }

  /** A false entry splits the runs: the longest run is the longer of the
      longest runs on either side of it. */
  lemma LongestRunSplit(bs: seq<bool>, z: int)
    requires 0 <= z < |bs| && !bs[z]
    ensures LongestRun(bs) == MaxNat(LongestRun(bs[..z]), LongestRun(bs[z + 1..]))
  {
    var left, right := bs[..z], bs[z + 1..];
    var lo := LongestRunAttained(bs);
    var len := LongestRun(bs);
    if lo + len <= z {
      assert AllTrue(left, lo, lo + len);
      LongestRunBounds(left, lo, lo + len);
    } else {
      assert lo > z;
      assert AllTrue(right, lo - z - 1, lo + len - z - 1);
      LongestRunBounds(right, lo - z - 1, lo + len - z - 1);
    }
    var l1 := LongestRunAttained(left);
    assert AllTrue(bs, l1, l1 + LongestRun(left));
    LongestRunBounds(bs, l1, l1 + LongestRun(left));
    var l2 := LongestRunAttained(right);
    assert AllTrue(bs, l2 + z + 1, l2 + z + 1 + LongestRun(right));
    LongestRunBounds(bs, l2 + z + 1, l2 + z + 1 + LongestRun(right));
  }

  /** A zero return ends every winning and every losing streak. */
  lemma ZeroBreaksStreaks(rs: seq<real>, z: int)
    requires 0 <= z < |rs| && rs[z] == 0.0
    ensures LongestRun(Winning(rs)) == MaxNat(LongestRun(Winning(rs[..z])), LongestRun(Winning(rs[z + 1..])))
    ensures LongestRun(Losing(rs)) == MaxNat(LongestRun(Losing(rs[..z])), LongestRun(Losing(rs[z + 1..])))
  {
    LongestRunSplit(Winning(rs), z);
    WinningSlices(rs, z);
    LongestRunSplit(Losing(rs), z);
    LosingSlices(rs, z);
  }

  lemma WinningSlices(rs: seq<real>, z: int)
    requires 0 <= z < |rs|
    ensures Winning(rs)[..z] == Winning(rs[..z]) && Winning(rs)[z + 1..] == Winning(rs[z + 1..])
  {
  }

  lemma LosingSlices(rs: seq<real>, z: int)
    requires 0 <= z < |rs|
    ensures Losing(rs)[..z] == Losing(rs[..z]) && Losing(rs)[z + 1..] == Losing(rs[z + 1..])
  {
  }

  /** The counting loop of `_max_consecutive_wins` and `_max_consecutive_losses`. */
  method MaxConsecutive(flags: seq<bool>) returns (maxConsecutive: nat)
    ensures maxConsecutive == LongestRun(flags)
    ensures maxConsecutive <= |flags|
  {
    var consecutive: nat := 0;
    maxConsecutive := 0;
    for i := 0 to |flags|
      invariant consecutive == TrailingRun(flags[..i])
      invariant maxConsecutive == LongestRun(flags[..i])
      invariant maxConsecutive <= i
    {
      assert flags[..i + 1][..i] == flags[..i];
      if flags[i] {
        consecutive := consecutive + 1;
        maxConsecutive := MaxNat(maxConsecutive, consecutive);
      } else {
        consecutive := 0;
      }
    }
    assert flags[..|flags|] == flags;
  }

  /** `_max_consecutive_wins`: the longest streak of strictly positive returns. */
  method MaxConsecutiveWins(rs: seq<real>) returns (r: nat)
    ensures r == LongestRun(Winning(rs)) && r <= |rs|
  {
    r := MaxConsecutive(Winning(rs));
  }

  /** `_max_consecutive_losses`: the longest streak of strictly negative returns. */
  method MaxConsecutiveLosses(rs: seq<real>) returns (r: nat)
    ensures r == LongestRun(Losing(rs)) && r <= |rs|
  {
    r := MaxConsecutive(Losing(rs));
  }

  // ---------------------------------------------------------------- performance

  datatype Performance = Performance(
    totalReturnPct: real, annualizedReturnPct: real, volatilityPct: real, sharpeRatio: real,
    maxConsecutiveWins: nat, maxConsecutiveLosses: nat)

  /** The performance figures of closes with at least one return, given
      their daily returns and streak lengths. */
  function PerformanceOf(num: Numerics, closes: seq<real>, rs: seq<real>, wins: nat, losses: nat): Performance
    requires |closes| > 0 && closes[0] > 0.0 && |rs| > 0
  {
    var total := (closes[|closes| - 1] / closes[0] - 1.0) * 100.0;
    var annualized := num.pow(1.0 + total / 100.0, 252.0 / (|rs| as real)) - 1.0;
    var volatility := num.std(rs) * num.sqrt(252.0);
    var sharpe := if volatility != 0.0 then annualized / volatility else 0.0;
    Performance(total, annualized * 100.0, volatility * 100.0, sharpe, wins, losses)
  }

  /** The performance block with its streaks given by LongestRun. */
  function PerformanceMetrics(num: Numerics, closes: seq<real>): Option<Performance>
    requires forall i :: 0 <= i < |closes| ==> closes[i] > 0.0
  {
    var rs := DailyReturns(closes);
    if |rs| == 0 then None
    else Some(PerformanceOf(num, closes, rs, LongestRun(Winning(rs)), LongestRun(Losing(rs))))
  }

  /** `_calculate_performance_metrics`, with its streaks counted by the loops. */
  method CalculatePerformanceMetrics(num: Numerics, closes: seq<real>) returns (r: Option<Performance>)
    requires forall i :: 0 <= i < |closes| ==> closes[i] > 0.0
    ensures r == PerformanceMetrics(num, closes)
  {
    var rs := DailyReturns(closes);
    if |rs| == 0 {
      return None;
    }
    var wins := MaxConsecutiveWins(rs);
    var losses := MaxConsecutiveLosses(rs);
    r := Some(PerformanceOf(num, closes, rs, wins, losses));
  }

  /** Nothing without returns; otherwise the total return from the first to
      the last close, which is also the compounded daily returns, the
      annualised volatility, a zero Sharpe ratio without volatility, and
      the longest winning and losing streaks. */
  lemma PerformanceMetricsMeaning(num: Numerics, closes: seq<real>)
    requires forall i :: 0 <= i < |closes| ==> closes[i] > 0.0
    ensures var r, rs := PerformanceMetrics(num, closes), DailyReturns(closes);
      (r.None? <==> rs == []) &&
      (r.Some? ==>
        r.value.totalReturnPct == (closes[|closes| - 1] / closes[0] - 1.0) * 100.0 &&
        1.0 + r.value.totalReturnPct / 100.0 == Growth(rs) &&
        r.value.volatilityPct == num.std(rs) * num.sqrt(252.0) * 100.0 &&
        (r.value.volatilityPct == 0.0 ==> r.value.sharpeRatio == 0.0) &&
        r.value.maxConsecutiveWins == LongestRun(Winning(rs)) &&
        r.value.maxConsecutiveLosses == LongestRun(Losing(rs)))
  {
    var rs := DailyReturns(closes);
    if rs != [] {
      GrowthTelescopes(closes);
      TotalReturnRatio(closes[|closes| - 1], closes[0]);
    }
  }

  lemma TotalReturnRatio(last: real, first: real)
    requires first > 0.0
    ensures 1.0 + (last / first - 1.0) * 100.0 / 100.0 == last / first
  {
  }

  // ---------------------------------------------------------------- diversification

  predicate Square(m: seq<seq<real>>)
  {
    forall i :: 0 <= i < |m| ==> |m[i]| == |m|
  }

  /** `values[np.triu_indices_from(values, k=1)]`: the entries above the
      diagonal, row by row, from row i on. */
  function UpperTriangle(m: seq<seq<real>>, i: nat): (r: seq<real>)
    requires Square(m)
    decreases |m| - i
  {
    if i >= |m| then [] else m[i][i + 1..] + UpperTriangle(m, i + 1)
  }

  /** The strict upper triangle holds exactly the entries m[i][j] with i < j,
      n(n-1)/2 of them. */
  lemma UpperTriangleEntries(m: seq<seq<real>>, i: nat)
    requires Square(m) && i <= |m|
    ensures 2 * |UpperTriangle(m, i)| == (|m| - i) * (|m| - i - 1)
    ensures forall x :: x in UpperTriangle(m, i) <==> exists r, c :: i <= r < c < |m| && m[r][c] == x
  {
    UpperTriangleLength(m, i);
    UpperTriangleMembers(m, i);
  }

  lemma {:induction false} UpperTriangleLength(m: seq<seq<real>>, i: nat)
    requires Square(m) && i <= |m|
    ensures 2 * |UpperTriangle(m, i)| == (|m| - i) * (|m| - i - 1)
    decreases |m| - i
  {
    if i < |m| {
      UpperTriangleLength(m, i + 1);
      var k := |m| - i - 1;
      assert |UpperTriangle(m, i)| == k + |UpperTriangle(m, i + 1)|;
      assert (k + 1) * k == 2 * k + k * (k - 1);
    }
  }

  lemma {:induction false} UpperTriangleMembers(m: seq<seq<real>>, i: nat)
    requires Square(m) && i <= |m|
    ensures forall x :: x in UpperTriangle(m, i) <==> exists r, c :: i <= r < c < |m| && m[r][c] == x
    decreases |m| - i
  {
    if i < |m| {
      UpperTriangleMembers(m, i + 1);
      var row := m[i][i + 1..];
      assert UpperTriangle(m, i) == row + UpperTriangle(m, i + 1);
      forall x | x in UpperTriangle(m, i)
        ensures exists r, c :: i <= r < c < |m| && m[r][c] == x
      {
        if x in row {
          var k :| 0 <= k < |row| && row[k] == x;
          assert m[i][i + 1 + k] == x;
        }
      }
      forall x | exists r, c :: i <= r < c < |m| && m[r][c] == x
        ensures x in UpperTriangle(m, i)
      {
        var r, c :| i <= r < c < |m| && m[r][c] == x;
        if r == i {
          assert row[c - i - 1] == x;
        }
      }
    }
  }

  lemma UpperTriangleSize(m: seq<seq<real>>)
    requires Square(m) && |m| >= 2
    ensures |UpperTriangle(m, 0)| > 0
  {
    UpperTriangleEntries(m, 0);
    var n := |m|;
    assert n * (n - 1) >= n;
  }

  /** `_calculate_diversification_ratio`: 1.0 for a single asset; otherwise
      1 / (mean above-diagonal correlation * sqrt(n)), missing where that
      is not finite (no pair of assets, or a zero denominator). */
  function DiversificationRatio(num: Numerics, m: seq<seq<real>>): (r: Option<real>)
    requires Square(m)
    ensures |m| == 1 ==> r == Some(1.0)
    ensures |m| == 0 ==> r.None?
  {
    var u := UpperTriangle(m, 0);
    if |m| == 1 then Some(1.0)
    else if u == [] then None
    else Reciprocal(Mean(u), num.sqrt(|m| as real))
  }

  /** 1 / (a * b), missing where it is not finite. */
  function Reciprocal(a: real, b: real): Option<real>
  {
    if a * b == 0.0 then None else Some(1.0 / (a * b))
  }

  lemma {:induction false} SumConstant(xs: seq<real>, c: real)
    requires forall k :: 0 <= k < |xs| ==> xs[k] == c
    ensures Sum(xs) == (|xs| as real) * c
    decreases |xs|
  {
    if xs != [] {
      SumConstant(xs[..|xs| - 1], c);
    }
  }

  /** When every pair of assets has the same correlation c, the ratio is
      1 / (c * sqrt(n)). */
  lemma DiversificationOfUniform(num: Numerics, m: seq<seq<real>>, c: real)
    requires Square(m) && |m| >= 2
    requires forall i, j :: 0 <= i < j < |m| ==> m[i][j] == c
    ensures DiversificationRatio(num, m) == Reciprocal(c, num.sqrt(|m| as real))
  {
    var u := UpperTriangle(m, 0);
    UpperTriangleUniform(m, c);
    MeanOfConstant(u, c);
  }

  lemma UpperTriangleUniform(m: seq<seq<real>>, c: real)
    requires Square(m) && |m| >= 2
    requires forall i, j :: 0 <= i < j < |m| ==> m[i][j] == c
    ensures |UpperTriangle(m, 0)| > 0
    ensures forall k :: 0 <= k < |UpperTriangle(m, 0)| ==> UpperTriangle(m, 0)[k] == c
  {
    var u := UpperTriangle(m, 0);
    UpperTriangleEntries(m, 0);
    UpperTriangleSize(m);
    forall k | 0 <= k < |u|
      ensures u[k] == c
    {
      assert u[k] in u;
    }
  }

  lemma MeanOfConstant(u: seq<real>, c: real)
    requires |u| > 0 && forall k :: 0 <= k < |u| ==> u[k] == c
    ensures Mean(u) == c
  {
    SumConstant(u, c);
    CancelCount(|u| as real, c);
  }

  lemma CancelCount(n: real, c: real)
    requires n > 0.0
    ensures n * c / n == c
  {
  }

  // ---------------------------------------------------------------- portfolio

  /** The symbols whose frame was loaded and is not empty, each once, in the
      order they were first requested (the keys of `returns_data`). */
  function LoadedSymbols(data: map<string, seq<Bar>>, symbols: seq<string>): (r: seq<string>)
    ensures forall s :: s in r <==> s in symbols && s in data && |data[s]| > 0
    ensures forall i, j :: 0 <= i < j < |r| ==> r[i] != r[j]
    decreases |symbols|
  {
    if symbols == [] then []
    else
      var init := LoadedSymbols(data, symbols[..|symbols| - 1]);
      var s := symbols[|symbols| - 1];
      assert forall x :: x in symbols <==> x in symbols[..|symbols| - 1] || x == s;
      if s in data && |data[s]| > 0 && s !in init then init + [s] else init
  }

  /** The day has a return in every frame. */
  predicate InAll(frames: seq<seq<Bar>>, d: int)
  {
    forall j :: 0 <= j < |frames| ==> d in Days(DatedReturns(frames[j]))
  }

  /** The days of `pd.DataFrame(returns_data).dropna()`: those on which every
      frame has a return, in the order of the given dated returns. */
  function RowDays(dr: seq<(int, real)>, frames: seq<seq<Bar>>): (r: seq<int>)
    ensures forall k :: 0 <= k < |r| ==> InAll(frames, r[k])
    decreases |dr|
  {
    if dr == [] then []
    else
      var d := dr[|dr| - 1].0;
      RowDays(dr[..|dr| - 1], frames) + (if InAll(frames, d) then [d] else [])
  }

  function Row(frames: seq<seq<Bar>>, d: int): (r: seq<real>)
    requires InAll(frames, d)
    ensures |r| == |frames|
  {
    seq(|frames|, j requires 0 <= j < |frames| && InAll(frames, d) => Lookup(DatedReturns(frames[j]), d).value)
  }

  /** The aligned returns frame: one row per common day, one column per loaded symbol. */
  function Rows(frames: seq<seq<Bar>>): (rows: seq<seq<real>>)
    ensures forall r :: 0 <= r < |rows| ==> |rows[r]| == |frames|
  {
    if frames == [] then []
    else
      var days := RowDays(DatedReturns(frames[0]), frames);
      seq(|days|, r requires 0 <= r < |days| => Row(frames, days[r]))
  }

  function ColumnOf(rows: seq<seq<real>>, j: nat): seq<real>
    requires forall r :: 0 <= r < |rows| ==> j < |rows[r]|
  {
    seq(|rows|, r requires 0 <= r < |rows| => rows[r][j])
  }

  /** sum(row * weights) */
  function WeightedSum(xs: seq<real>, ws: seq<real>): real
    requires |xs| == |ws|
  {
    Sum(seq(|xs|, k requires 0 <= k < |xs| => xs[k] * ws[k]))
  }

  /** `np.ones(n) / n` */
  function EqualWeights(n: nat): (ws: seq<real>)
    ensures |ws| == n
  {
    if n == 0 then [] else seq(n, k => 1.0 / (n as real))
  }

  datatype Portfolio = Portfolio(
    correlationMatrix: seq<seq<real>>, pcaExplainedVariance: seq<real>,
    portfolioVolatility: real, diversificationRatio: Option<real>)

  /** The result of `_analyze_portfolio`: an empty dict, the analysis, or a
      raised error. */
  datatype PortfolioOutcome = NoPortfolio | Analysed(portfolio: Portfolio) | Raises

  /** The portfolio block over k aligned return columns with the given PCA
      components and weights. */
  function PortfolioOf(num: Numerics, rows: seq<seq<real>>, k: nat, components: nat, weights: seq<real>): Portfolio
    requires |weights| == k && forall r :: 0 <= r < |rows| ==> |rows[r]| == k
  {
    var matrix := seq(k, i requires 0 <= i < k => seq(k, j requires 0 <= j < k => num.corr(ColumnOf(rows, i), ColumnOf(rows, j))));
    var portfolioReturns := seq(|rows|, r requires 0 <= r < |rows| => WeightedSum(rows[r], weights));
    Portfolio(matrix, num.pca(rows, components), num.std(portfolioReturns) * num.sqrt(252.0), DiversificationRatio(num, matrix))
  }

  function MinNat(a: nat, b: nat): nat { if a <= b then a else b }

  /** `_analyze_portfolio` as written, for the loaded frames of n requested
      symbols: PCA is asked for min(3, n) components and the weights have n
      entries although the returns frame has one column per loaded symbol,
      so it raises whenever a requested symbol is missing. */
  function AnalyzePortfolioAsWritten(num: Numerics, frames: seq<seq<Bar>>, n: nat): PortfolioOutcome
  {
    var k, rows := |frames|, Rows(frames);
    if k == 0 then NoPortfolio
    else if MinNat(3, n) > MinNat(|rows|, k) then Raises
    else if n != k then Raises
    else Analysed(PortfolioOf(num, rows, k, MinNat(3, n), EqualWeights(n)))
  }

  /** A requested symbol that failed to load (or a repeated one) makes the
      portfolio block raise though the other symbols loaded. */
  lemma PortfolioAsWrittenRaises(num: Numerics, frames: seq<seq<Bar>>, n: nat)
    requires 0 < |frames| < n
    ensures AnalyzePortfolioAsWritten(num, frames, n) == Raises
  {
  }

  /** `_analyze_portfolio` sized by the symbols that loaded: equal weights
      over the k return columns and at most k PCA components. PCA still
      rejects fewer rows than components. */
  function AnalyzePortfolio(num: Numerics, frames: seq<seq<Bar>>): (r: PortfolioOutcome)
    ensures r.NoPortfolio? <==> frames == []
    ensures r == Raises <==> frames != [] && |Rows(frames)| < MinNat(3, |frames|)
  {
    var k, rows := |frames|, Rows(frames);
    if k == 0 then NoPortfolio
    else if MinNat(3, k) > |rows| then Raises
    else Analysed(PortfolioOf(num, rows, k, MinNat(3, k), EqualWeights(k)))
  }

  /** When every requested symbol loaded, the two agree. */
  lemma PortfolioAgreesWhenAllLoaded(num: Numerics, frames: seq<seq<Bar>>)
    ensures AnalyzePortfolioAsWritten(num, frames, |frames|) == AnalyzePortfolio(num, frames)
  {
  }

  function Scaled(xs: seq<real>, w: real): (r: seq<real>)
    ensures |r| == |xs| && forall k :: 0 <= k < |xs| ==> r[k] == xs[k] * w
  {
    seq(|xs|, k requires 0 <= k < |xs| => xs[k] * w)
  }

  lemma {:induction false} SumScaled(xs: seq<real>, w: real)
    ensures Sum(Scaled(xs, w)) == Sum(xs) * w
    decreases |xs|
  {
    if xs != [] {
      var init := xs[..|xs| - 1];
      SumScaled(init, w);
      var s, t := Scaled(xs, w), Scaled(init, w);
      forall k | 0 <= k < |init|
        ensures s[..|s| - 1][k] == t[k]
      {
        assert init[k] == xs[k];
      }
      assert s[..|s| - 1] == t;
    }
  }

  lemma MulInverse(s: real, n: real)
    requires n > 0.0
    ensures s * (1.0 / n) == s / n
  {
  }

  /** With equal weights a portfolio return is the plain mean of its row. */
  lemma EqualWeightsAverage(xs: seq<real>)
    requires |xs| > 0
    ensures WeightedSum(xs, EqualWeights(|xs|)) == Mean(xs)
  {
    var n := |xs| as real;
    var w := 1.0 / n;
    var ws := EqualWeights(|xs|);
    var products := seq(|xs|, k requires 0 <= k < |xs| => xs[k] * ws[k]);
    var scaled := Scaled(xs, w);
    forall k | 0 <= k < |xs|
      ensures products[k] == scaled[k]
    {
      assert ws[k] == w;
      var x := xs[k];
      assert products[k] == x * ws[k];
    }
    assert products == scaled;
    SumScaled(xs, w);
    MulInverse(Sum(xs), n);
    assert WeightedSum(xs, ws) == Sum(products);
  }

  /** The equal weights sum to one. */
  lemma EqualWeightsSumToOne(n: nat)
    requires n > 0
    ensures Sum(EqualWeights(n)) == 1.0
  {
    SumConstant(EqualWeights(n), 1.0 / (n as real));
    CancelCount(n as real, 1.0 / (n as real));
  }

  /** The portfolio's volatility is that of the row means of the aligned returns. */
  lemma PortfolioVolatilityOfMeans(num: Numerics, frames: seq<seq<Bar>>)
    requires AnalyzePortfolio(num, frames).Analysed?
    ensures var rows := Rows(frames);
      AnalyzePortfolio(num, frames).portfolio.portfolioVolatility ==
      num.std(seq(|rows|, r requires 0 <= r < |rows| && |rows[r]| > 0 => Mean(rows[r]))) * num.sqrt(252.0)
  {
    var rows, k := Rows(frames), |frames|;
    var means := seq(|rows|, r requires 0 <= r < |rows| && |rows[r]| > 0 => Mean(rows[r]));
    var portfolioReturns := seq(|rows|, r requires 0 <= r < |rows| => WeightedSum(rows[r], EqualWeights(k)));
    forall r | 0 <= r < |rows|
      ensures portfolioReturns[r] == means[r]
    {
      EqualWeightsAverage(rows[r]);
    }
    assert portfolioReturns == means;
  }

  // ---------------------------------------------------------------- technical summary

  datatype Momentum = OVERBOUGHT | OVERSOLD | NEUTRAL

  /** The (overbought, oversold) levels of the indicators that have them. */
  function Thresholds(n: ColumnName): Option<(real, real)>
  {
    match n
    case RSI => Some((70.0, 30.0))
    case Stoch_K => Some((80.0, 20.0))
    case Williams_R => Some((-20.0, -80.0))
    case CCI => Some((100.0, -100.0))
    case _ => None
  }

  function Band(x: Option<real>, over: real, under: real): Momentum
  {
    if x.Some? && x.value > over then OVERBOUGHT else if x.Some? && x.value < under then OVERSOLD else NEUTRAL
  }

  /** `_interpret_momentum_indicator`: strict comparisons, the overbought
      test first; a NaN compares false and any other indicator is NEUTRAL. */
  function InterpretMomentumIndicator(n: ColumnName, x: Option<real>): (r: Momentum)
    ensures r == OVERBOUGHT <==> Thresholds(n).Some? && x.Some? && x.value > Thresholds(n).value.0
    ensures r == OVERSOLD <==>
      Thresholds(n).Some? && x.Some? && x.value <= Thresholds(n).value.0 && x.value < Thresholds(n).value.1
    ensures Thresholds(n).None? || x.None? ==> r == NEUTRAL
  {
    match n
    case RSI => Band(x, 70.0, 30.0)
    case Stoch_K => Band(x, 80.0, 20.0)
    case Williams_R => Band(x, -20.0, -80.0)
    case CCI => Band(x, 100.0, -100.0)
    case _ => NEUTRAL
  }

  const SummaryPeriods: seq<nat> := [20, 50, 200]
  const MomentumColumns: seq<ColumnName> := [RSI, MACD, Stoch_K, Williams_R, CCI]

  datatype Trade = BUY | SELL
  datatype VolumeLevel = HIGH | NORMAL

  datatype SmaSignal = SmaSignal(value: Option<real>, signal: Trade)
  datatype MomentumSignal = MomentumSignal(value: Option<real>, signal: Momentum)
  datatype VolatilitySignals = VolatilitySignals(atr: Option<real>, atrRatio: Option<real>)
  datatype VolumeSignals = VolumeSignals(volumeRatio: Option<real>, volumeSignal: VolumeLevel)

  datatype TechnicalSummary = TechnicalSummary(
    currentPrice: real, smaSignals: map<nat, SmaSignal>, momentumSignals: map<ColumnName, MomentumSignal>,
    volatilitySignals: Option<VolatilitySignals>, volumeSignals: Option<VolumeSignals>)

  /** `latest[col]`: the column's value on the last bar. */
  function LastValue(c: Column): Option<real>
  {
    if c == [] then None else c[|c| - 1]
  }

  /** x / y, missing where x is NaN or y is 0. */
  function Quotient(x: Option<real>, y: real): Option<real>
  {
    if x.Some? && y != 0.0 then Some(x.value / y) else None
  }

  function SmaSignalOf(close: real, value: Option<real>): SmaSignal
  {
    SmaSignal(value, if Gt(Some(close), value) then BUY else SELL)
  }

  function MomentumSignalOf(n: ColumnName, value: Option<real>): MomentumSignal
  {
    MomentumSignal(value, InterpretMomentumIndicator(n, value))
  }

  function SmaSignals(close: real, periods: seq<nat>, cols: Columns): map<nat, SmaSignal>
  {
    map p | p in periods && p in cols.sma :: SmaSignalOf(close, LastValue(cols.sma[p]))
  }

  function MomentumSignals(names: seq<ColumnName>, cols: Columns): map<ColumnName, MomentumSignal>
  {
    map n | n in names && Get(cols, n).Some? :: MomentumSignalOf(n, LastValue(Get(cols, n).value))
  }

  /** The summary `_extract_technical_summary` builds from a frame's last
      bar: the close; BUY exactly when it is strictly above an SMA_20/50/200
      the frame has; the momentum columns the frame has, each with its
      interpretation; the ATR with its ratio to the close; and HIGH exactly
      for a volume ratio above 1.5. */
  function TechnicalSummaryOf(bars: seq<Bar>, cols: Columns): (s: TechnicalSummary)
    requires |bars| > 0
    ensures s.currentPrice == bars[|bars| - 1].close
    ensures forall p :: p in s.smaSignals <==> p in SummaryPeriods && p in cols.sma
    ensures forall p :: p in s.smaSignals ==>
      s.smaSignals[p].value == LastValue(cols.sma[p]) &&
      (s.smaSignals[p].signal == BUY <==> Gt(Some(s.currentPrice), s.smaSignals[p].value))
    ensures forall n :: n in s.momentumSignals <==> n in MomentumColumns && Get(cols, n).Some?
    ensures forall n :: n in s.momentumSignals ==>
      s.momentumSignals[n].value == LastValue(Get(cols, n).value) &&
      s.momentumSignals[n].signal == InterpretMomentumIndicator(n, s.momentumSignals[n].value)
    ensures s.volatilitySignals.Some? <==> cols.atr.Some?
    ensures s.volatilitySignals.Some? ==>
      s.volatilitySignals.value.atr == LastValue(cols.atr.value) &&
      s.volatilitySignals.value.atrRatio == Quotient(s.volatilitySignals.value.atr, s.currentPrice)
    ensures s.volumeSignals.Some? <==> cols.volumeRatio.Some?
    ensures s.volumeSignals.Some? ==>
      s.volumeSignals.value.volumeRatio == LastValue(cols.volumeRatio.value) &&
      (s.volumeSignals.value.volumeSignal == HIGH <==> Gt(s.volumeSignals.value.volumeRatio, Some(1.5)))
  {
    var close := bars[|bars| - 1].close;
    TechnicalSummary(close,
      SmaSignals(close, SummaryPeriods, cols),
      MomentumSignals(MomentumColumns, cols),
      if cols.atr.Some? then
        var atr := LastValue(cols.atr.value);
        Some(VolatilitySignals(atr, Quotient(atr, close)))
      else None,
      if cols.volumeRatio.Some? then
        var ratio := LastValue(cols.volumeRatio.value);
        Some(VolumeSignals(ratio, if Gt(ratio, Some(1.5)) then HIGH else VolumeLevel.NORMAL))
      else None)
  }

  /** `_extract_technical_summary`. */
  method ExtractTechnicalSummary(df: Frame) returns (s: TechnicalSummary)
    requires |df.bars| > 0
    ensures s == TechnicalSummaryOf(df.bars, df.cols)
  {
    var cols := df.cols;
    var close := df.bars[|df.bars| - 1].close;
    var sma: map<nat, SmaSignal> := map[];
    for i := 0 to |SummaryPeriods|
      invariant sma == SmaSignals(close, SummaryPeriods[..i], cols)
    {
      var period := SummaryPeriods[i];
      assert SummaryPeriods[..i + 1] == SummaryPeriods[..i] + [period];
      if period in cols.sma {
        sma := sma[period := SmaSignalOf(close, LastValue(cols.sma[period]))];
      }
    }
    assert SummaryPeriods[..|SummaryPeriods|] == SummaryPeriods;
    var momentum: map<ColumnName, MomentumSignal> := map[];
    for i := 0 to |MomentumColumns|
      invariant momentum == MomentumSignals(MomentumColumns[..i], cols)
    {
      var name := MomentumColumns[i];
      assert MomentumColumns[..i + 1] == MomentumColumns[..i] + [name];
      var col := Get(cols, name);
      if col.Some? {
        momentum := momentum[name := MomentumSignalOf(name, LastValue(col.value))];
      }
    }
    assert MomentumColumns[..|MomentumColumns|] == MomentumColumns;
    var volatility: Option<VolatilitySignals> := None;
    if cols.atr.Some? {
      var atr := LastValue(cols.atr.value);
      volatility := Some(VolatilitySignals(atr, Quotient(atr, close)));
    }
    var volume: Option<VolumeSignals> := None;
    if cols.volumeRatio.Some? {
      var ratio := LastValue(cols.volumeRatio.value);
      volume := Some(VolumeSignals(ratio, if Gt(ratio, Some(1.5)) then HIGH else VolumeLevel.NORMAL));
    }
    s := TechnicalSummary(close, sma, momentum, volatility, volume);
  }

  // ---------------------------------------------------------------- analyze_market

  const PortfolioKey := "portfolio_analysis"

  datatype SymbolAnalysis = SymbolAnalysis(
    technicalIndicators: TechnicalSummary, riskMetrics: RiskMetrics, marketRegime: MarketRegime,
    supportResistance: Levels, correlations: Correlations, performanceMetrics: Option<Performance>)

  /** A value of the result dict: one symbol's analysis or the portfolio block. */
  datatype Entry = SymbolEntry(analysis: SymbolAnalysis) | PortfolioEntry(outcome: PortfolioOutcome)

  /** The result of `analyze_market`, or the error the portfolio block raised. */
  datatype MarketAnalysis = Results(results: map<string, Entry>) | PortfolioFailed

  /** A requested symbol is analysed when its frame loaded and is not empty. */
  predicate Usable(data: map<string, seq<Bar>>, s: string)
  {
    s in data && |data[s]| > 0
  }

  /** The loaded frames of the requested symbols, as `returns_data` collects them. */
  function LoadedFrames(data: map<string, seq<Bar>>, symbols: seq<string>): (frames: seq<seq<Bar>>)
    ensures |frames| == |LoadedSymbols(data, symbols)|
  {
    var loaded := LoadedSymbols(data, symbols);
    seq(|loaded|, i requires 0 <= i < |loaded| => data[loaded[i]])
  }

  /** `data.get(benchmark, pd.DataFrame())` */
  function BenchmarkBars(data: map<string, seq<Bar>>, benchmark: string): seq<Bar>
  {
    if benchmark in data then data[benchmark] else []
  }

  /** One symbol's entry: the summary of its indicator frame and the
      measures of its closes. */
  function SymbolAnalysisOf(cfg: IndicatorConfig, num: Numerics, bars: seq<Bar>, benchmark: seq<Bar>): SymbolAnalysis
    reads cfg
    requires cfg.Valid() && |bars| > 0 && PositiveCloses(bars)
  {
    var closes := Closes(bars);
    SymbolAnalysis(
      TechnicalSummaryOf(bars, AllColumns(cfg, num, bars, OnlyOther(map[]))),
      CalculateRiskMetrics(num, closes),
      DetectMarketRegime(num, closes),
      SupportResistance(bars, 20),
      CalculateCorrelations(num, bars, benchmark),
      PerformanceMetrics(num, closes))
  }

  predicate UsablePositive(data: map<string, seq<Bar>>, symbols: seq<string>)
  {
    forall s :: s in symbols && Usable(data, s) ==> PositiveCloses(data[s])
  }

  /** The entries of `analyze_market`'s loop, symbol by symbol; a repeated
      symbol is analysed again into the same entry. */
  function SymbolResults(cfg: IndicatorConfig, num: Numerics, symbols: seq<string>, benchmark: seq<Bar>,
                         data: map<string, seq<Bar>>): map<string, Entry>
    reads cfg
    requires cfg.Valid() && UsablePositive(data, symbols)
    decreases |symbols|
  {
    if symbols == [] then map[]
    else
      var init, s := symbols[..|symbols| - 1], symbols[|symbols| - 1];
      var m := SymbolResults(cfg, num, init, benchmark, data);
      if Usable(data, s) then m[s := SymbolEntry(SymbolAnalysisOf(cfg, num, data[s], benchmark))] else m
  }

  /** The loop's result has an entry for exactly the requested symbols that
      loaded, and each is that symbol's analysis. */
  lemma {:induction false} SymbolResultsEntries(cfg: IndicatorConfig, num: Numerics, symbols: seq<string>,
                                                benchmark: seq<Bar>, data: map<string, seq<Bar>>)
    requires cfg.Valid() && UsablePositive(data, symbols)
    ensures var m := SymbolResults(cfg, num, symbols, benchmark, data);
      (forall s :: s in m <==> s in symbols && Usable(data, s)) &&
      (forall s :: s in m ==> m[s] == SymbolEntry(SymbolAnalysisOf(cfg, num, data[s], benchmark)))
    decreases |symbols|
  {
    if symbols != [] {
      var init, last := symbols[..|symbols| - 1], symbols[|symbols| - 1];
      assert forall x :: x in symbols <==> x in init || x == last;
      SymbolResultsEntries(cfg, num, init, benchmark, data);
      var m0, m := SymbolResults(cfg, num, init, benchmark, data), SymbolResults(cfg, num, symbols, benchmark, data);
      forall x | x in m
        ensures m[x] == SymbolEntry(SymbolAnalysisOf(cfg, num, data[x], benchmark))
      {
        if x != last || !Usable(data, last) {
          assert m[x] == m0[x];
        }
      }
    }
  }

  /** `MarketDataAnalyzer`: the configuration and the indicator engine built
      from it; the numerical library is a parameter. */
  class Analyzer {
    const config: IndicatorConfig
    const indicators: TechnicalIndicators.Engine
    const num: Numerics

    /** The engine shares the analyzer's configuration and library. */
    ghost predicate Valid()
      reads this, indicators
    {
      indicators.config == config && indicators.num == num
    }

    /** `MarketDataAnalyzer(config)`: a missing configuration is replaced by
        the default one. */
    constructor (config: Option<IndicatorConfig>, num: Numerics)
      ensures config.Some? ==> this.config == config.value
      ensures config.None? ==> fresh(this.config) && this.config.IsDefault() && this.config.Valid()
      ensures this.num == num && Valid()
    {
      var c: IndicatorConfig;
      if config.Some? {
        c := config.value;
      } else {
        c := new IndicatorConfig.Default();
      }
      this.config := c;
      this.indicators := new TechnicalIndicators.Engine(Some(c), num);
      this.num := num;
    }

    /** The body of `analyze_market`'s loop for one loaded symbol. */
    method AnalyzeSymbol(bars: seq<Bar>, benchmark: seq<Bar>) returns (a: SymbolAnalysis)
      requires Valid() && config.Valid() && |bars| > 0 && PositiveCloses(bars)
      ensures a == SymbolAnalysisOf(config, num, bars, benchmark)
    {
      var closes := Closes(bars);
      ghost var cols := AllColumns(config, num, bars, OnlyOther(map[]));
      OnlyOtherValid(|bars|);
      var frame := new Frame(bars, OnlyOther(map[]));
      var df := indicators.CalculateAll(frame);
      assert df.bars == bars && df.cols == cols;
      var summary := ExtractTechnicalSummary(df);
      var performance := CalculatePerformanceMetrics(num, closes);
      a := SymbolAnalysis(summary, CalculateRiskMetrics(num, closes), DetectMarketRegime(num, closes),
        SupportResistance(bars, 20), CalculateCorrelations(num, bars, benchmark), performance);
    }

    /** `analyze_market`'s loop over the requested symbols. */
    method AnalyzeSymbols(symbols: seq<string>, benchmark: seq<Bar>, data: map<string, seq<Bar>>)
      returns (results: map<string, Entry>)
      requires Valid() && config.Valid() && UsablePositive(data, symbols)
      ensures results == SymbolResults(config, num, symbols, benchmark, data)
    {
      results := map[];
      for i := 0 to |symbols|
        invariant UsablePositive(data, symbols[..i])
        invariant results == SymbolResults(config, num, symbols[..i], benchmark, data)
      {
        var symbol := symbols[i];
        assert symbols[..i + 1][..i] == symbols[..i];
        if symbol in data && |data[symbol]| > 0 {
          var analysis := AnalyzeSymbol(data[symbol], benchmark);
          results := results[symbol := SymbolEntry(analysis)];
        }
      }
      assert symbols[..|symbols|] == symbols;
    }

    /** `analyze_market` over `data`, the frames `load_data` returned for
        the symbols and the benchmark: an entry per loaded symbol, and the
        portfolio block under "portfolio_analysis" (over any symbol of that
        name) when more than one symbol was requested. The block is the one
        `_analyze_portfolio` computes as written, so a requested symbol that
        did not load makes the whole call raise (PortfolioAsWrittenRaises). */
    method AnalyzeMarket(symbols: seq<string>, benchmark: string, data: map<string, seq<Bar>>)
      returns (r: MarketAnalysis)
      requires Valid() && config.Valid() && UsablePositive(data, symbols)
      ensures r.PortfolioFailed? <==> |symbols| > 1 && AnalyzePortfolioAsWritten(num, LoadedFrames(data, symbols), |symbols|) == Raises
      ensures r.Results? ==> forall s ::
        s in r.results <==> (s in symbols && Usable(data, s)) || (|symbols| > 1 && s == PortfolioKey)
      ensures r.Results? && |symbols| > 1 ==>
        r.results[PortfolioKey] == PortfolioEntry(AnalyzePortfolioAsWritten(num, LoadedFrames(data, symbols), |symbols|))
      ensures r.Results? ==> forall s :: s in r.results && !(|symbols| > 1 && s == PortfolioKey) ==>
        r.results[s] == SymbolEntry(SymbolAnalysisOf(config, num, data[s], BenchmarkBars(data, benchmark)))
    {
      var bench := BenchmarkBars(data, benchmark);
      var results := AnalyzeSymbols(symbols, bench, data);
      ghost var entries := results;
      SymbolResultsEntries(config, num, symbols, bench, data);
      if |symbols| > 1 {
        var portfolio := AnalyzePortfolioAsWritten(num, LoadedFrames(data, symbols), |symbols|);
        if portfolio == Raises {
          return PortfolioFailed;
        }
        results := results[PortfolioKey := PortfolioEntry(portfolio)];
      }
      forall s | s in results && !(|symbols| > 1 && s == PortfolioKey)
        ensures s in entries && results[s] == entries[s]
      {
      }
      r := Results(results);
    }
  }

  /** The frame `load_data` hands over, as the model keeps it: the OHLCV
      bars and no other column. The source frame also carries Dividends,
      Stock Splits and Volume_MA (data_loader.py line 50); the model drops
      them because nothing downstream reads them: `calculate_all` recomputes
      Volume_MA, and the other two are not signal names. */
  lemma OnlyOtherValid(n: nat)
    ensures Aligned(OnlyOther(map[]), n) && OthersUnreserved(OnlyOther(map[]))
  {
  }
}
