/** The loader of src/core/data_loader.py: the validation of a fetched
    frame, and `load_data`'s loop over the requested symbols with its
    cache. The data sources and the clock are parameters. */
module DataLoader {
  import opened Series

  // ---------------------------------------------------------------- frames

  /** What validation looks at in a DataFrame: its column names, its number
      of rows and the number of missing values in each column. */
  datatype Table = Table(columns: seq<string>, rows: nat, nullCounts: map<string, nat>)

  /** `pd.DataFrame()` */
  const EmptyTable := Table([], 0, map[])

  /** `data.empty`: no rows or no columns. */
  predicate IsEmpty(t: Table)
  {
    t.rows == 0 || t.columns == []
  }

  function Nulls(t: Table, c: string): nat
  {
    if c in t.nullCounts then t.nullCounts[c] else 0
  }

  const RequiredColumns: seq<string> := ["Open", "High", "Low", "Close", "Volume"]

  /** The required names the frame lacks, in the order they are required. */
  function MissingColumns(required: seq<string>, columns: seq<string>): (r: seq<string>)
    ensures forall c :: c in r <==> c in required && c !in columns
    ensures |r| <= |required|
  {
    if required == [] then []
    else
      var rest := MissingColumns(required[1..], columns);
      if required[0] in columns then rest else [required[0]] + rest
  }

  /** A frame that has none of the required names lacks all of them. */
  lemma {:induction false} MissingAll(required: seq<string>, columns: seq<string>)
    requires forall k :: 0 <= k < |required| ==> required[k] !in columns
    ensures MissingColumns(required, columns) == required
  {
    if required != [] {
      MissingAll(required[1..], columns);
    }
  }

  /** A frame with only "Open" lacks the other four, listed in order. */
  lemma MissingColumnsOfOpenOnly()
    ensures MissingColumns(RequiredColumns, ["Open"]) == ["High", "Low", "Close", "Volume"]
  {
    var rest := RequiredColumns[1..];
    assert rest == ["High", "Low", "Close", "Volume"];
    forall k | 0 <= k < |rest|
      ensures rest[k] !in ["Open"]
    {
      assert rest[k][0] != "Open"[0];
    }
    MissingAll(rest, ["Open"]);
  }

  /** A frame without columns lacks all five. */
  lemma MissingColumnsOfNone()
    ensures MissingColumns(RequiredColumns, []) == RequiredColumns
  {
    MissingAll(RequiredColumns, []);
  }

  /** A frame survives `_validate_data` when it is not empty and has every
      required column. */
  predicate Passes(t: Table)
  {
    !IsEmpty(t) && MissingColumns(RequiredColumns, t.columns) == []
  }

  /** `missing_pct > 5` for one required column of a frame with rows. */
  predicate HighMissing(t: Table, c: string)
    requires t.rows > 0
  {
    (Nulls(t, c) as real) / (t.rows as real) * 100.0 > 5.0
  }

  /** More than 5% missing is more than one row in twenty. */
  lemma HighMissingCount(t: Table, c: string)
    requires t.rows > 0
    ensures HighMissing(t, c) <==> 20 * Nulls(t, c) > t.rows
  {
    var n, m := Nulls(t, c) as real, t.rows as real;
    DivMul(n, m);
    ScaledAbove(n / m, n, m);
    assert (20 * Nulls(t, c)) as real == 20.0 * n;
  }

  lemma ScaledAbove(x: real, n: real, m: real)
    requires m > 0.0 && x * m == n
    ensures x * 100.0 > 5.0 <==> 20.0 * n > m
  {
    if x > 0.05 {
      MulStrict(x, 0.05, m);
    } else {
      MulWeak(0.05, x, m);
    }
  }

  lemma DivMul(n: real, m: real)
    requires m > 0.0
    ensures n / m * m == n
  {
  }

  lemma MulStrict(a: real, b: real, m: real)
    requires a > b && m > 0.0
    ensures a * m > b * m
  {
  }

  lemma MulWeak(a: real, b: real, m: real)
    requires a >= b && m > 0.0
    ensures a * m >= b * m
  {
  }

  datatype ValidationError = EmptyDataset | MissingColumnsError(missing: seq<string>)

  /** The outcome of `_validate_data`: it returns, possibly after logging a
      warning about missing values, or it raises. */
  datatype Validation = Returned(warned: bool) | Raised(error: ValidationError)

  /** `_validate_data`: raises on an empty frame, then on missing required
      columns (naming them in order); a high share of missing values only
      logs a warning. */
  method ValidateData(t: Table) returns (r: Validation)
    ensures r == Raised(EmptyDataset) <==> IsEmpty(t)
    ensures r.Raised? && r.error.MissingColumnsError? <==> !IsEmpty(t) && MissingColumns(RequiredColumns, t.columns) != []
    ensures r.Raised? && r.error.MissingColumnsError? ==> r.error.missing == MissingColumns(RequiredColumns, t.columns)
    ensures r.Returned? <==> Passes(t)
    ensures r.Returned? ==> t.rows > 0 && (r.warned <==> exists c :: c in RequiredColumns && HighMissing(t, c))
  {
    if t.rows == 0 || t.columns == [] {
      return Raised(EmptyDataset);
    }
    var missing := MissingColumns(RequiredColumns, t.columns);
    if missing != [] {
      return Raised(MissingColumnsError(missing));
    }
    var warned := exists c :: c in RequiredColumns && HighMissing(t, c);
    r := Returned(warned);
  }

  // ---------------------------------------------------------------- load_data

  /** A cache row's primary key: symbol, start date, end date, source. */
  datatype CacheKey = CacheKey(symbol: string, startDate: string, endDate: string, source: string)

  /** The request `load_data` serves; `fetch` stands for the named source's
      `fetch_data`, None when it raises. */
  datatype Request = Request(
    startDate: string, endDate: string, source: string, useCache: bool,
    fetch: (string, string, string, string) -> Option<Table>)

  function KeyOf(q: Request, symbol: string): CacheKey
  {
    CacheKey(symbol, q.startDate, q.endDate, q.source)
  }

  /** The frame a symbol gets and the cache after it: a cache hit first;
      otherwise an empty frame when the source is unknown, the fetch raises
      or validation raises; otherwise the fetched frame, cached when the
      cache is in use. */
  function LoadOne(cache: map<CacheKey, Table>, sources: set<string>, q: Request, symbol: string): (map<CacheKey, Table>, Table)
  {
    var key := KeyOf(q, symbol);
    if q.useCache && key in cache then (cache, cache[key])
    else if q.source !in sources then (cache, EmptyTable)
    else
      var fetched := q.fetch(q.source, symbol, q.startDate, q.endDate);
      if fetched.None? || !Passes(fetched.value) then (cache, EmptyTable)
      else (if q.useCache then cache[key := fetched.value] else cache, fetched.value)
  }

  /** `load_data`'s loop, symbol by symbol: the cache and the results after it. */
  function LoadAll(cache: map<CacheKey, Table>, sources: set<string>, q: Request, symbols: seq<string>)
    : (map<CacheKey, Table>, map<string, Table>)
    decreases |symbols|
  {
    if symbols == [] then (cache, map[])
    else
      var before := LoadAll(cache, sources, q, symbols[..|symbols| - 1]);
      var symbol := symbols[|symbols| - 1];
      var after := LoadOne(before.0, sources, q, symbol);
      (after.0, before.1[symbol := after.1])
  }

  /** What a symbol may get: its cached frame, a fetched frame that passed
      validation, or an empty frame. */
  predicate Acceptable(cache: map<CacheKey, Table>, sources: set<string>, q: Request, symbol: string, t: Table)
  {
    var key := KeyOf(q, symbol);
    t == EmptyTable ||
    (q.useCache && key in cache && t == cache[key]) ||
    (q.source in sources && q.fetch(q.source, symbol, q.startDate, q.endDate) == Some(t) && Passes(t))
  }

  /** The cache only gains entries, each the validated fetch of a requested
      symbol, and only when it is in use. */
  predicate Grows(c0: map<CacheKey, Table>, c1: map<CacheKey, Table>, sources: set<string>, q: Request, symbols: seq<string>)
  {
    (forall k :: k in c0 ==> k in c1 && c1[k] == c0[k]) &&
    (forall k :: k in c1 && k !in c0 ==>
      q.useCache && k.symbol in symbols && k == KeyOf(q, k.symbol) && q.source in sources &&
      q.fetch(q.source, k.symbol, q.startDate, q.endDate) == Some(c1[k]) && Passes(c1[k]))
  }

  lemma {:induction false} LoadAllCache(cache: map<CacheKey, Table>, sources: set<string>, q: Request, symbols: seq<string>)
    ensures Grows(cache, LoadAll(cache, sources, q, symbols).0, sources, q, symbols)
    decreases |symbols|
  {
    if symbols != [] {
      var init := symbols[..|symbols| - 1];
      LoadAllCache(cache, sources, q, init);
      assert forall x :: x in init ==> x in symbols;
    }
  }

  /** One entry per requested symbol; each is acceptable, an entry the
      cache held before the call is returned as it was, and a symbol that
      neither hits the old cache nor fetches a valid frame gets an empty
      frame. */
  lemma {:induction false} LoadAllResults(cache: map<CacheKey, Table>, sources: set<string>, q: Request, symbols: seq<string>)
    ensures var r := LoadAll(cache, sources, q, symbols);
      (forall s :: s in r.1 <==> s in symbols) &&
      (forall s :: s in r.1 ==> Acceptable(cache, sources, q, s, r.1[s])) &&
      (forall s :: s in r.1 && q.useCache && KeyOf(q, s) in cache ==> r.1[s] == cache[KeyOf(q, s)])
    decreases |symbols|
  {
    if symbols != [] {
      var init, symbol := symbols[..|symbols| - 1], symbols[|symbols| - 1];
      LoadAllResults(cache, sources, q, init);
      LoadAllCache(cache, sources, q, init);
      assert forall x :: x in symbols <==> x in init || x == symbol;
    }
  }

  /** A symbol whose fetch fails or does not validate, and that has no entry
      in the cache as it was, gets an empty frame; the other symbols are
      unaffected by it. */
  lemma FailureGivesEmpty(cache: map<CacheKey, Table>, sources: set<string>, q: Request, symbols: seq<string>, s: string)
    requires s in symbols && !(q.useCache && KeyOf(q, s) in cache)
    requires var f := q.fetch(q.source, s, q.startDate, q.endDate); q.source !in sources || f.None? || !Passes(f.value)
    ensures s in LoadAll(cache, sources, q, symbols).1 && LoadAll(cache, sources, q, symbols).1[s] == EmptyTable
  {
    LoadAllResults(cache, sources, q, symbols);
  }

  /** Without the cache, an unknown source gives every symbol an empty frame. */
  lemma UnknownSourceGivesEmpty(cache: map<CacheKey, Table>, sources: set<string>, q: Request, symbols: seq<string>)
    requires q.source !in sources && !q.useCache
    ensures forall s :: s in LoadAll(cache, sources, q, symbols).1 ==> LoadAll(cache, sources, q, symbols).1[s] == EmptyTable
  {
    LoadAllResults(cache, sources, q, symbols);
  }

  /** `DataLoader`: the registered sources and the cache database, whose
      rows are held as a map from key to frame. Rows older than a day are
      taken to be absent (the clock is not modelled). */
  class Loader {
    const sources: set<string>
    var cache: map<CacheKey, Table>

    /** Every cached frame passed validation. */
    ghost predicate Valid()
      reads this
    {
      forall k :: k in cache ==> Passes(cache[k])
    }

    /** `DataLoader()` over the cache database as found. */
    constructor (cache: map<CacheKey, Table>)
      ensures sources == {"yahoo", "alphavantage"} && this.cache == cache
    {
      sources := {"yahoo", "alphavantage"};
      this.cache := cache;
    }

    /** `_get_cached_data` */
    method GetCachedData(key: CacheKey) returns (r: Option<Table>)
      ensures r.Some? <==> key in cache
      ensures r.Some? ==> r.value == cache[key]
    {
      if key in cache {
        return Some(cache[key]);
      }
      return None;
    }

    /** `_cache_data`: INSERT OR REPLACE */
    method CacheData(key: CacheKey, t: Table)
      modifies this
      ensures cache == old(cache)[key := t]
    {
      cache := cache[key := t];
    }

    /** `load_data` */
    method LoadData(symbols: seq<string>, q: Request) returns (results: map<string, Table>)
      modifies this
      ensures (cache, results) == LoadAll(old(cache), sources, q, symbols)
      ensures old(Valid()) ==> Valid()
    {
      ghost var cache0 := cache;
      results := map[];
      for i := 0 to |symbols|
        invariant (cache, results) == LoadAll(cache0, sources, q, symbols[..i])
      {
        var symbol := symbols[i];
        assert symbols[..i + 1][..i] == symbols[..i];
        var key := KeyOf(q, symbol);
        if q.useCache {
          var cached := GetCachedData(key);
          if cached.Some? {
            results := results[symbol := cached.value];
            continue;
          }
        }
        if q.source !in sources {
          results := results[symbol := EmptyTable];
          continue;
        }
        var fetched := q.fetch(q.source, symbol, q.startDate, q.endDate);
        if fetched.None? {
          results := results[symbol := EmptyTable];
          continue;
        }
        var validation := ValidateData(fetched.value);
        if validation.Raised? {
          results := results[symbol := EmptyTable];
          continue;
        }
        if q.useCache {
          CacheData(key, fetched.value);
        }
        results := results[symbol := fetched.value];
      }
      assert symbols[..|symbols|] == symbols;
      LoadAllCache(cache0, sources, q, symbols);
    }
  }
}
