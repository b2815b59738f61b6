/** The numerical library calls the model does not interpret (square roots,
    standard deviations, percentiles, regressions, powers, PCA). Each is a
    parameter of the model; the rules that consume their results are modelled. */
module Oracles {
  import opened Series

  datatype Numerics = Numerics(
    std: seq<real> -> real,                  // sample standard deviation (ddof = 1), pandas `std()`
    sqrt: real -> real,                      // numpy `sqrt`
    percentile: (seq<real>, real) -> real,   // numpy `percentile` (linear interpolation)
    corr: (seq<real>, seq<real>) -> real,    // Pearson correlation, pandas `corr()`
    slope: seq<real> -> real,                // slope of scipy `linregress` of the values against 0, 1, 2, ...
    hurst: seq<real> -> real,                // the whole Hurst estimate, including its fallback to 0.5
    pow: (real, real) -> real,               // Python's `**` on floats
    pca: (seq<seq<real>>, nat) -> seq<real>  // explained-variance ratios of PCA on standardised columns
  )

  /** What the real library guarantees and the model's lemmas may rely on. */
  ghost predicate Sound(num: Numerics)
  {
    (forall xs :: num.std(xs) >= 0.0) && (forall x :: num.sqrt(x) >= 0.0)
  }

  /** `rolling(window=w).std()` over a column without missing values:
      the sample standard deviation of each full trailing window. */
  function RollingStd(num: Numerics, xs: seq<real>, w: nat): (r: Column)
    requires w >= 1
    ensures |r| == |xs|
    ensures forall i :: 0 <= i < |xs| ==> (r[i].Some? <==> i >= w - 1)
  {
    seq(|xs|, i requires 0 <= i < |xs| =>
      if i >= w - 1 then Some(num.std(xs[i + 1 - w..i + 1])) else None)
  }

  lemma RollingStdNonNegative(num: Numerics, xs: seq<real>, w: nat, i: int)
    requires Sound(num) && w >= 1 && 0 <= i < |xs|
    ensures RollingStd(num, xs, w)[i].Some? ==> RollingStd(num, xs, w)[i].value >= 0.0
  {
  }
}
