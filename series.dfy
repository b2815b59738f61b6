/** Price bars, aligned columns with an explicit missing marker, and the
    rolling / shifting / cumulative primitives the pandas code relies on. */
module Series {

  datatype Option<+T> = None | Some(value: T)

  /** One trading period. `day` stands for the timestamp index of the frame. */
  datatype Bar = Bar(day: int, open: real, high: real, low: real, close: real, volume: real)

  /** A derived column aligned with the input bars; `None` is pandas' NaN. */
  type Column = seq<Option<real>>

  /** The data model's promise about a bar: positive prices, low <= close <= high, volume >= 0. */
  predicate WellFormedBar(b: Bar)
  {
    0.0 < b.low <= b.close <= b.high && 0.0 < b.open && 0.0 <= b.volume
  }

  predicate PositiveCloses(bars: seq<Bar>)
  {
    forall i :: 0 <= i < |bars| ==> bars[i].close > 0.0
  }

  function Closes(bars: seq<Bar>): (r: seq<real>)
    ensures |r| == |bars| && forall i :: 0 <= i < |bars| ==> r[i] == bars[i].close
  {
    seq(|bars|, i requires 0 <= i < |bars| => bars[i].close)
  }

  function Highs(bars: seq<Bar>): (r: seq<real>)
    ensures |r| == |bars| && forall i :: 0 <= i < |bars| ==> r[i] == bars[i].high
  {
    seq(|bars|, i requires 0 <= i < |bars| => bars[i].high)
  }

  function Lows(bars: seq<Bar>): (r: seq<real>)
    ensures |r| == |bars| && forall i :: 0 <= i < |bars| ==> r[i] == bars[i].low
  {
    seq(|bars|, i requires 0 <= i < |bars| => bars[i].low)
  }

  function Volumes(bars: seq<Bar>): (r: seq<real>)
    ensures |r| == |bars| && forall i :: 0 <= i < |bars| ==> r[i] == bars[i].volume
  {
    seq(|bars|, i requires 0 <= i < |bars| => bars[i].volume)
  }

  /** A column with no missing entries. */
  function Lift(xs: seq<real>): (c: Column)
    ensures |c| == |xs| && forall i :: 0 <= i < |xs| ==> c[i] == Some(xs[i])
  {
    seq(|xs|, i requires 0 <= i < |xs| => Some(xs[i]))
  }

  /** pandas `astype(int)` of a boolean mask, kept as a column of 0/1. */
  function Flag(b: bool): Option<real>
  {
    if b then Some(1.0) else Some(0.0)
  }

  // ---------------------------------------------------------------- sums

  function Sum(xs: seq<real>): real
  {
    if xs == [] then 0.0 else Sum(xs[..|xs| - 1]) + xs[|xs| - 1]
  }

  function Mean(xs: seq<real>): real
    requires |xs| > 0
  {
    Sum(xs) / (|xs| as real)
  }

  function Max(a: real, b: real): real { if a >= b then a else b }
  function Min(a: real, b: real): real { if a <= b then a else b }
  function Abs(x: real): real { if x >= 0.0 then x else -x }

  function SeqMax(xs: seq<real>): (m: real)
    requires |xs| > 0
    ensures m in xs && forall i :: 0 <= i < |xs| ==> xs[i] <= m
  {
    if |xs| == 1 then xs[0] else Max(SeqMax(xs[..|xs| - 1]), xs[|xs| - 1])
  }

  function SeqMin(xs: seq<real>): (m: real)
    requires |xs| > 0
    ensures m in xs && forall i :: 0 <= i < |xs| ==> m <= xs[i]
  {
    if |xs| == 1 then xs[0] else Min(SeqMin(xs[..|xs| - 1]), xs[|xs| - 1])
  }

  lemma SumAppend(xs: seq<real>, x: real)
    ensures Sum(xs + [x]) == Sum(xs) + x
  {
    assert (xs + [x])[..|xs|] == xs;
  }

  lemma SumPrefixStep(xs: seq<real>, i: int)
    requires 0 <= i < |xs|
    ensures Sum(xs[..i + 1]) == Sum(xs[..i]) + xs[i]
  {
    assert xs[..i + 1][..i] == xs[..i];
  }

  lemma {:induction false} SumConcat(xs: seq<real>, ys: seq<real>)
    ensures Sum(xs + ys) == Sum(xs) + Sum(ys)
    decreases |ys|
  {
    if ys == [] {
      assert xs + ys == xs;
    } else {
      var ys' := ys[..|ys| - 1];
      assert xs + ys == (xs + ys') + [ys[|ys| - 1]];
      SumAppend(xs + ys', ys[|ys| - 1]);
      SumConcat(xs, ys');
      SumAppend(ys', ys[|ys| - 1]);
      assert ys' + [ys[|ys| - 1]] == ys;
    }
  }

  /** Every element in [lo, hi] puts the sum in [n*lo, n*hi]. */
  lemma {:induction false} SumBounds(xs: seq<real>, lo: real, hi: real)
    requires forall i :: 0 <= i < |xs| ==> lo <= xs[i] <= hi
    ensures (|xs| as real) * lo <= Sum(xs) <= (|xs| as real) * hi
    decreases |xs|
  {
    if xs != [] {
      SumBounds(xs[..|xs| - 1], lo, hi);
    }
  }

  /** A sum of non-negative terms is non-negative. */
  lemma {:induction false} SumNonNegative(xs: seq<real>)
    requires forall i :: 0 <= i < |xs| ==> xs[i] >= 0.0
    ensures Sum(xs) >= 0.0
    decreases |xs|
  {
    if xs != [] {
      SumNonNegative(xs[..|xs| - 1]);
    }
  }

  /** Every element in [lo, hi] puts the mean in [lo, hi]. */
  lemma MeanBounds(xs: seq<real>, lo: real, hi: real)
    requires |xs| > 0
    requires forall i :: 0 <= i < |xs| ==> lo <= xs[i] <= hi
    ensures lo <= Mean(xs) <= hi
  {
    SumBounds(xs, lo, hi);
    DivBounds(Sum(xs), |xs| as real, lo, hi);
  }

  /** The mean of a window lies between its smallest and largest element. */
  lemma MeanBetween(xs: seq<real>)
    requires |xs| > 0
    ensures SeqMin(xs) <= Mean(xs) <= SeqMax(xs)
  {
    MeanBounds(xs, SeqMin(xs), SeqMax(xs));
  }

  lemma DivBounds(s: real, n: real, lo: real, hi: real)
    requires n > 0.0 && n * lo <= s <= n * hi
    ensures lo <= s / n <= hi
  {
    var q := s / n;
    assert q * n == s;
    assert (q - lo) * n >= 0.0;
    assert (hi - q) * n >= 0.0;
  }

  // ---------------------------------------------------------------- windows

  predicate AllSome(c: Column)
  {
    forall k :: 0 <= k < |c| ==> c[k].Some?
  }

  function Values(c: Column): (r: seq<real>)
    requires AllSome(c)
    ensures |r| == |c| && forall k :: 0 <= k < |c| ==> r[k] == c[k].value
  {
    seq(|c|, k requires 0 <= k < |c| => c[k].value)
  }

  /** The values c[lo..hi] when all of them are present (pandas' default
      `min_periods` equal to the window), else None. */
  function WindowValues(c: Column, lo: int, hi: int): (r: Option<seq<real>>)
    ensures r.Some? <==> 0 <= lo <= hi <= |c| && AllSome(c[lo..hi])
    ensures r.Some? ==> |r.value| == hi - lo && forall k :: lo <= k < hi ==> r.value[k - lo] == c[k].value
  {
    if 0 <= lo <= hi <= |c| && AllSome(c[lo..hi]) then Some(Values(c[lo..hi])) else None
  }

  lemma LiftWindow(xs: seq<real>, lo: int, hi: int)
    requires 0 <= lo <= hi <= |xs|
    ensures WindowValues(Lift(xs), lo, hi) == Some(xs[lo..hi])
  {
    var w := WindowValues(Lift(xs), lo, hi);
    assert w.Some?;
    assert w.value == xs[lo..hi];
  }

  /** Trailing window of width w ending at bar i: bars i-w+1..i. */
  function Trailing(c: Column, i: int, w: nat): Option<seq<real>>
  {
    WindowValues(c, i + 1 - w, i + 1)
  }

  /** `rolling(window=w).mean()` */
  function RollingMean(c: Column, w: nat): (r: Column)
    requires w >= 1
    ensures |r| == |c|
  {
    seq(|c|, i requires 0 <= i < |c| =>
      match Trailing(c, i, w)
      case Some(xs) => Some(Mean(xs))
      case None => None)
  }

  /** `rolling(window=w).max()` */
  function RollingMax(c: Column, w: nat): (r: Column)
    requires w >= 1
    ensures |r| == |c|
  {
    seq(|c|, i requires 0 <= i < |c| =>
      match Trailing(c, i, w)
      case Some(xs) => Some(SeqMax(xs))
      case None => None)
  }

  /** `rolling(window=w).min()` */
  function RollingMin(c: Column, w: nat): (r: Column)
    requires w >= 1
    ensures |r| == |c|
  {
    seq(|c|, i requires 0 <= i < |c| =>
      match Trailing(c, i, w)
      case Some(xs) => Some(SeqMin(xs))
      case None => None)
  }

  /** A fully present input has a trailing window at bar i exactly from bar w-1 on. */
  lemma TrailingOfLift(xs: seq<real>, i: int, w: nat)
    requires 0 <= i < |xs| && w >= 1
    ensures Trailing(Lift(xs), i, w).Some? <==> i >= w - 1
    ensures i >= w - 1 ==> Trailing(Lift(xs), i, w) == Some(xs[i + 1 - w..i + 1])
  {
    if i >= w - 1 {
      LiftWindow(xs, i + 1 - w, i + 1);
    }
  }

  /** Centered window used by `rolling(window=w, center=True)`: pandas puts
      the window end (exclusive) at i + 1 + (w - 1) / 2. */
  function CenteredMax(c: Column, w: nat): (r: Column)
    requires w >= 1
    ensures |r| == |c|
  {
    seq(|c|, i requires 0 <= i < |c| =>
      match WindowValues(c, i + 1 + (w - 1) / 2 - w, i + 1 + (w - 1) / 2)
      case Some(xs) => Some(SeqMax(xs))
      case None => None)
  }

  function CenteredMin(c: Column, w: nat): (r: Column)
    requires w >= 1
    ensures |r| == |c|
  {
    seq(|c|, i requires 0 <= i < |c| =>
      match WindowValues(c, i + 1 + (w - 1) / 2 - w, i + 1 + (w - 1) / 2)
      case Some(xs) => Some(SeqMin(xs))
      case None => None)
  }

  /** `shift(k)`: bar i takes the value of bar i - k; positions with no source bar are missing. */
  function Shift(c: Column, k: int): (r: Column)
    ensures |r| == |c|
  {
    seq(|c|, i requires 0 <= i < |c| => if 0 <= i - k < |c| then c[i - k] else None)
  }

  /** Running sums `cumsum()` of a column without missing entries. */
  function CumSum(xs: seq<real>): (r: seq<real>)
    ensures |r| == |xs|
  {
    seq(|xs|, i requires 0 <= i < |xs| => Sum(xs[..i + 1]))
  }

  lemma CumSumStep(xs: seq<real>, i: int)
    requires 0 < i < |xs|
    ensures CumSum(xs)[i] == CumSum(xs)[i - 1] + xs[i]
  {
    assert xs[..i + 1] == xs[..i] + [xs[i]];
    SumAppend(xs[..i], xs[i]);
  }

  // ---------------------------------------------------------------- nlargest / nsmallest

  /** `a` may be listed before `b`: by `nlargest` when desc, by `nsmallest` otherwise. */
  predicate Before(a: real, b: real, desc: bool)
  {
    if desc then a >= b else a <= b
  }

  predicate OrderedBy(xs: seq<real>, desc: bool)
  {
    forall i, j :: 0 <= i < j < |xs| ==> Before(xs[i], xs[j], desc)
  }

  /** Inserts x into a list ordered by `Before`, after the values that may precede it. */
  function Insert(x: real, s: seq<real>, desc: bool): (r: seq<real>)
    ensures |r| == |s| + 1
  {
    if |s| == 0 || Before(x, s[0], desc) then [x] + s else [s[0]] + Insert(x, s[1..], desc)
  }

  /** A stable sort from best to worst; the order `nlargest` / `nsmallest` report. */
  function SortBy(xs: seq<real>, desc: bool): (r: seq<real>)
    ensures |r| == |xs|
  {
    if |xs| == 0 then [] else Insert(xs[0], SortBy(xs[1..], desc), desc)
  }

  lemma {:induction false} InsertMultiset(x: real, s: seq<real>, desc: bool)
    ensures multiset(Insert(x, s, desc)) == multiset(s) + multiset{x}
  {
    if |s| > 0 && !Before(x, s[0], desc) {
      InsertMultiset(x, s[1..], desc);
      assert s == [s[0]] + s[1..];
    }
  }

  lemma {:induction false} InsertOrdered(x: real, s: seq<real>, desc: bool)
    requires OrderedBy(s, desc)
    ensures OrderedBy(Insert(x, s, desc), desc)
  {
    if |s| > 0 && !Before(x, s[0], desc) {
      var t := Insert(x, s[1..], desc);
      InsertOrdered(x, s[1..], desc);
      var r := [s[0]] + t;
      forall j | 0 < j < |r|
        ensures Before(s[0], r[j], desc)
      {
        InsertElement(x, s[1..], desc, j - 1);
      }
      forall i, j | 0 <= i < j < |r|
        ensures Before(r[i], r[j], desc)
      {
        if i > 0 {
          assert r[i] == t[i - 1] && r[j] == t[j - 1];
        }
      }
    }
  }

  /** Every value of Insert(x, s) is x or a value of s. */
  lemma {:induction false} InsertElement(x: real, s: seq<real>, desc: bool, j: int)
    requires 0 <= j < |s| + 1
    ensures Insert(x, s, desc)[j] == x || exists i :: 0 <= i < |s| && Insert(x, s, desc)[j] == s[i]
  {
    if |s| > 0 && !Before(x, s[0], desc) && j > 0 {
      InsertElement(x, s[1..], desc, j - 1);
      if Insert(x, s[1..], desc)[j - 1] != x {
        var i :| 0 <= i < |s[1..]| && Insert(x, s[1..], desc)[j - 1] == s[1..][i];
        assert Insert(x, s, desc)[j] == s[i + 1];
      }
    }
  }

  lemma {:induction false} SortByMultiset(xs: seq<real>, desc: bool)
    ensures multiset(SortBy(xs, desc)) == multiset(xs)
  {
    if |xs| > 0 {
      SortByMultiset(xs[1..], desc);
      InsertMultiset(xs[0], SortBy(xs[1..], desc), desc);
      assert xs == [xs[0]] + xs[1..];
    }
  }

  lemma {:induction false} SortByOrdered(xs: seq<real>, desc: bool)
    ensures OrderedBy(SortBy(xs, desc), desc)
  {
    if |xs| > 0 {
      SortByOrdered(xs[1..], desc);
      InsertOrdered(xs[0], SortBy(xs[1..], desc), desc);
    }
  }

  /** `nlargest(k)` (desc) or `nsmallest(k)` of a series, as a list: the k best
      values, duplicates kept, from best to worst. */
  function TopK(xs: seq<real>, k: nat, desc: bool): (r: seq<real>)
    ensures |r| == if k <= |xs| then k else |xs|
  {
    SortBy(xs, desc)[..if k <= |xs| then k else |xs|]
  }

  /** TopK picks values of its input, each at most as often as it occurs there. */
  lemma TopKSelects(xs: seq<real>, k: nat, desc: bool)
    ensures multiset(TopK(xs, k, desc)) <= multiset(xs)
  {
    var s := SortBy(xs, desc);
    var n := |TopK(xs, k, desc)|;
    SortByMultiset(xs, desc);
    assert s == s[..n] + s[n..];
    assert multiset(s) == multiset(s[..n]) + multiset(s[n..]);
  }

  /** TopK lists its values from best to worst. */
  lemma TopKOrdered(xs: seq<real>, k: nat, desc: bool)
    ensures OrderedBy(TopK(xs, k, desc), desc)
  {
    SortByOrdered(xs, desc);
  }

  /** No value left out of TopK is better than a value it lists. */
  lemma TopKBest(xs: seq<real>, k: nat, desc: bool, x: real, y: real)
    requires x in multiset(xs) - multiset(TopK(xs, k, desc)) && y in TopK(xs, k, desc)
    ensures Before(y, x, desc)
  {
    var s := SortBy(xs, desc);
    var n := |TopK(xs, k, desc)|;
    SortByMultiset(xs, desc);
    SortByOrdered(xs, desc);
    SplitMultiset(s, n);
    OrderedAcross(s, n, desc, x, y);
  }

  lemma SplitMultiset(s: seq<real>, n: nat)
    requires n <= |s|
    ensures multiset(s) - multiset(s[..n]) == multiset(s[n..])
  {
    assert s == s[..n] + s[n..];
  }

  lemma OrderedAcross(s: seq<real>, n: nat, desc: bool, x: real, y: real)
    requires n <= |s| && OrderedBy(s, desc) && x in s[n..] && y in s[..n]
    ensures Before(y, x, desc)
  {
    var i :| 0 <= i < n && s[..n][i] == y;
    var j :| 0 <= j < |s[n..]| && s[n..][j] == x;
    assert s[i] == y && s[n + j] == x;
  }

  // ---------------------------------------------------------------- names

  function Digit(d: nat): char
    requires d < 10
  {
    "0123456789"[d]
  }

  /** Python's `str()` of a non-negative int, used in column names like `SMA_20`. */
  function NatToString(n: nat): (s: string)
    ensures |s| >= 1
    decreases n
  {
    if n < 10 then [Digit(n)] else NatToString(n / 10) + [Digit(n % 10)]
  }

  lemma {:induction false} NatToStringInjective(a: nat, b: nat)
    requires NatToString(a) == NatToString(b)
    ensures a == b
    decreases a
  {
    var sa, sb := NatToString(a), NatToString(b);
    if a < 10 && b < 10 {
      assert Digit(a) == sa[0] == sb[0] == Digit(b);
    } else if a >= 10 && b >= 10 {
      assert sa[..|sa| - 1] == NatToString(a / 10);
      assert sb[..|sb| - 1] == NatToString(b / 10);
      assert Digit(a % 10) == sa[|sa| - 1] == sb[|sb| - 1] == Digit(b % 10);
      NatToStringInjective(a / 10, b / 10);
    }
  }

  /** Python's `word in name` for strings. */
  predicate Contains(name: string, word: string)
  {
    exists i :: 0 <= i <= |name| - |word| && OccursAt(name, word, i)
  }

  predicate OccursAt(name: string, word: string, i: int)
  {
    0 <= i && i + |word| <= |name| && name[i..i + |word|] == word
  }

  /** Python's `int(x)` for a float: truncation toward zero. */
  function TruncToInt(x: real): (r: int)
    ensures Abs(r as real) <= Abs(x) < Abs(r as real) + 1.0
    ensures x >= 0.0 ==> r >= 0
    ensures x < 0.0 ==> r <= 0
  {
    if x >= 0.0 then x.Floor else -((-x).Floor)
  }
}
