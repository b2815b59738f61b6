# my-python-data-tool, modelled in Dafny

my-python-data-tool is a market-data toolkit. This project models its core.

- **Data loader** (`src/core/data_loader.py`): downloads OHLCV frames from a named source. It validates each frame and keeps a cache keyed by symbol, date range and source.
- **Indicator engine** (`src/core/indicators.py`): `TechnicalIndicators.calculate_all` adds moving averages, RSI, MACD, Bollinger bands, stochastics, Williams %R, CCI, volume indicators, ATR, Keltner channels, Ichimoku lines and VWAP to a frame. `get_signal_summary` reads the last value of every signal column. `calculate_support_resistance` picks the strongest local extremes.
- **Market analyzer** (`src/core/market_analyzer.py`): `MarketDataAnalyzer.analyze_market` builds a per-symbol report. The report holds:
  - a technical summary;
  - risk metrics (historical VaR, expected shortfall, maximum drawdown, Sharpe, Sortino and Calmar ratios);
  - a market regime;
  - support and resistance levels;
  - the correlation and beta against a benchmark;
  - performance metrics with win and loss streaks;
  - a cross-symbol portfolio block.
- **Two stand-alone scripts** (`my-python-data-tool-main/python-data-analysis.py` and `data-graph.py`). Both add indicator columns to a downloaded frame and backtest a 20/50-day SMA crossover with vectorised pandas steps. The first trades long and short. The second trades long only and filters out overbought bars.

## How the model represents the system

- **Prices and columns.** Prices are `real`. A pandas column is a `seq<Option<real>>` (`Series.Column`), and `None` stands for NaN. A division by zero, which pandas turns into an infinity or NaN, is folded into `None`.
- **Numerical library calls.** The standard deviation, square root, percentile, correlation, regression slope, Hurst exponent, power and PCA are fields of an oracle value `Oracles.Numerics`. Every member that needs one takes it as a parameter. `Oracles.Sound` states what the model assumes of them (a deviation and a square root are never negative).
- **State.**
  - `calculate_all` and its passes work on a frame object: `IndicatorFrame.Frame`, whose `cols` record the engine's methods in `TechnicalIndicators.Engine` change in place.
  - `load_data` changes the loader's cache: `DataLoader.Loader`.
  - The two scripts change their DataFrame: `PythonDataAnalysis.Frame` and `DataGraph.Frame`.
  Every state-changing method is stated as "the new columns (or cache) equal a function of the old ones". The properties the source promises are lemmas about that function.
- **Loops.** The loops of the source are methods with loop invariants: the streak counters, `analyze_market`'s loop over symbols, `load_data`'s loop and `get_signal_summary`'s loop.

Modules and files:
- `series.dfy` (Series): columns, windows, sums, sorting, `TopK`, `shift`.
- `oracles.dfy` (Oracles): the numerics oracle and `rolling().std()`.
- `returns.dfy` (Returns): percentage changes, `dropna`, compounding and drawdowns.
- `indicators.dfy` (Indicators): every indicator formula.
- `indicator_frame.dfy` (IndicatorFrame): the configuration, the frame's named columns and the passes of `calculate_all`.
- `technical_indicators.dfy` (TechnicalIndicators): the engine class.
- `signal_names.dfy` (SignalNames): which columns `get_signal_summary` reports.
- `market_analyzer.dfy` (MarketAnalyzer).
- `data_loader.dfy` (DataLoader).
- `backtest.dfy` (Backtest): the steps the two scripts share.
- `python_data_analysis.dfy` (PythonDataAnalysis).
- `data_graph.dfy` (DataGraph).

## Model

| member | source | states |
|---|---|---|
| Series.TruncToInt | src/core/indicators.py:251 | Python `int()` of a float truncates toward zero: the result is within 1 of x and has x's sign |
| Series.SortByMultiset | src/core/indicators.py:265-266 | the stable sort behind `nlargest`/`nsmallest` is a permutation of its input |
| Series.SortByOrdered | src/core/indicators.py:265-266 | the sort lists values from best to worst |
| Series.TopKSelects | src/core/indicators.py:265-266 | `nlargest(k)`/`nsmallest(k)` pick values of the input, each at most as often as it occurs |
| Series.TopKOrdered | src/core/indicators.py:265-266 | the picked values are listed from best to worst |
| Series.TopKBest | src/core/indicators.py:265-266 | no value left out is better than a value that was picked |
| Series.NatToStringInjective | src/core/indicators.py:74-78 | distinct periods give distinct column names `SMA_<p>` / `EMA_<p>` |
| Series.MeanBetween | src/core/indicators.py:74-75 | the mean of a window lies between its smallest and largest element |
| Returns.DailyReturnsOfPositive | src/core/market_analyzer.py:153 | `pct_change().dropna()` of positive closes is one relative change per bar after the first |
| Returns.GrowthTelescopes | src/core/market_analyzer.py:283-284 | compounding the daily returns of positive closes gives last close / first close |
| Returns.MinPresent | src/core/market_analyzer.py:170 | `Series.min()` is the least present value, and is missing exactly when no value is present |
| Returns.DrawdownsNonPositive | src/core/market_analyzer.py:167-169 | once the first return exceeds -100%, every bar's drawdown against its running peak is present and at most 0 |
| Returns.MaxDrawdownNonPositive | src/core/market_analyzer.py:167-170 | the maximum drawdown of returns whose first exceeds -100% is present and at most 0 |
| Returns.MaxDrawdownAtMostZero | my-python-data-tool-main/python-data-analysis.py:134-137 | for any returns, a present maximum drawdown is at most 0 |
| Returns.MaxDrawdownOfGains | src/core/market_analyzer.py:167-170 | a path without losses has maximum drawdown 0 |
| Returns.GrowthFromZero | src/core/market_analyzer.py:167 | a first return of -100% makes every later compounded value 0 |
| Indicators.AboveFlag | src/core/indicators.py:99 | `(c > t).astype(int)`: 1 exactly where c is present and above t, else 0 |
| Indicators.BelowFlag | src/core/indicators.py:100 | `(c < t).astype(int)`: 1 exactly where c is present and below t, else 0 |
| Indicators.GtFlag | src/core/indicators.py:114 | `(a > b).astype(int)` of two columns: 1 exactly where both are present and a > b |
| Indicators.LtFlag | src/core/indicators.py:115 | `(a < b).astype(int)` of two columns: 1 exactly where both are present and a < b |
| Indicators.Div | src/core/indicators.py:128-131 | element-wise division is present exactly where both operands are and the denominator is nonzero |
| Indicators.SmaAt | src/core/indicators.py:74-75 | `SMA_p` is missing before bar p-1 and from there on is the mean of the last p closes |
| Indicators.SmaWithinWindow | src/core/indicators.py:74-75 | a moving average lies between the lowest and highest close of its window |
| Indicators.EmaWithin | src/core/indicators.py:77-78 | every `ewm(span, adjust=False)` value lies within any bounds on the values seen so far |
| Indicators.EmaOfConstant | src/core/indicators.py:77-78 | the EMA of a constant series is that constant |
| Indicators.CrossAt | src/core/indicators.py:81-85 | golden/death cross flags are 0/1 and fire exactly when the strict comparison starts to hold after the weak opposite held on the bar before |
| Indicators.CrossExclusive | src/core/indicators.py:81-85 | a cross above and a cross below never fire on the same bar |
| Indicators.CrossNotRepeated | src/core/indicators.py:81-85 | a cross cannot fire on two consecutive bars |
| Indicators.Gains | src/core/indicators.py:92 | the gains column is never negative (the first, NaN delta becomes 0) |
| Indicators.Losses | src/core/indicators.py:93 | the losses column is never negative |
| Indicators.RsiAt | src/core/indicators.py:89-97 | RSI is missing before bar p-1; then it is 100 g/(g+l) of the window's mean gain and loss, lies in [0, 100], and is missing only for a window without price change |
| Indicators.RsiValueFormula | src/core/indicators.py:94-96 | for mean gain g and loss l, `100 - 100/(1+g/l)` is 100 g/(g+l) in [0, 100], and is missing exactly when g+l is 0 |
| Indicators.RsiAllGains | src/core/indicators.py:94-96 | a window with gains and no losses gives RSI exactly 100 |
| Indicators.MacdFirstBar | src/core/indicators.py:104-112 | MACD, its signal line and its histogram are 0 on the first bar |
| Indicators.MacdOfConstant | src/core/indicators.py:104-112 | a flat price gives a flat zero MACD, signal and histogram |
| Indicators.MacdCrossIsHistogramSignChange | src/core/indicators.py:114-117 | the MACD bullish (bearish) cross fires exactly when the histogram turns positive (negative) |
| Indicators.BollingerDefined | src/core/indicators.py:121-131 | the middle band, both bands and the width exist exactly from bar p-1 on |
| Indicators.BollingerValues | src/core/indicators.py:124-127 | the bands lie k rolling standard deviations above and below the middle band |
| Indicators.BollingerOrdered | src/core/indicators.py:124-130 | with k >= 0, Upper >= Middle >= Lower and the width is 2k std |
| Indicators.BollingerPositionFlags | src/core/indicators.py:131-134 | with a positive width, the close is above the upper band exactly when BB_Position > 1, below the lower band exactly when it is < 0, and the overbought/oversold flags are set accordingly |
| Indicators.StochKAt | src/core/indicators.py:138-147 | on bars with Low <= Close <= High, Stoch_K exists from bar k-1 on except where the range is flat, and lies in [0, 100] |
| Indicators.StochValueBounds | src/core/indicators.py:145-147 | a close within its range gives a stochastic value in [0, 100], missing exactly for a flat range |
| Indicators.WilliamsIsShiftedStochK | src/core/indicators.py:152-159 | Williams %R is the 14-bar Stoch_K less 100, and both are present together |
| Indicators.CciAt | src/core/indicators.py:161-169 | CCI is missing before bar 19 and where the mean absolute deviation is 0; its sign is that of the typical price minus its SMA |
| Indicators.MeanAbsDevNonNegative | src/core/indicators.py:166 | the mean absolute deviation is never negative |
| Indicators.ObvRecurrence | src/core/indicators.py:174 | OBV starts at 0 and adds, subtracts or keeps each bar's volume on an up, down or unchanged close |
| Indicators.ObvBounded | src/core/indicators.py:174 | with non-negative volumes, the absolute OBV never exceeds the volume traded so far |
| Indicators.VolumeRocAt | src/core/indicators.py:177 | Volume_ROC is missing on the first 10 bars; against a positive earlier volume it is positive exactly when volume grew |
| Indicators.VolumeRatioAt | src/core/indicators.py:180-181 | Volume_Ratio exists from bar 19 where the mean volume is nonzero, and is above 1 exactly when the bar's volume beats the mean |
| Indicators.TrueRanges | src/core/indicators.py:187-191 | every true range is at least High - Low |
| Indicators.AtrAt | src/core/indicators.py:185-196 | ATR exists exactly from bar 13 on and is non-negative on bars with Low <= High |
| Indicators.KeltnerSymmetric | src/core/indicators.py:198-207 | the Keltner lines lie 2 ATR above and below the 20-span EMA, and exist exactly where ATR does |
| Indicators.MidRangeDefined | src/core/indicators.py:211-222 | a w-bar mid range exists exactly from bar w-1 on |
| Indicators.IchimokuShifts | src/core/indicators.py:209-232 | Senkou A exists from bar 51 and Senkou B from bar 77, each being the mid ranges of 26 bars earlier; Chikou is the close 26 bars later |
| Indicators.VwapAt | src/core/indicators.py:234-242 | VWAP at bar i is the running price-volume sum over the running volume, missing where no volume has traded |
| Indicators.VwapWithin | src/core/indicators.py:234-242 | with non-negative volumes, VWAP exists wherever volume has traded and lies within any bounds on the typical prices |
| Indicators.MatchingValuesMembers | src/core/indicators.py:261-262 | every support/resistance candidate is a present value equal to the rolled extreme on its bar |
| Indicators.SupportResistanceShape | src/core/indicators.py:255-271 | at most three levels each; resistance highest first and support lowest first; no candidate left out beats a listed one; levels are taken from the candidates |
| IndicatorFrame.IndicatorConfig.constructor | src/core/indicators.py:20-38 | a missing list of SMA or EMA periods becomes the default list; every other field is what was passed |
| IndicatorFrame.IndicatorConfig.Default | src/core/indicators.py:20-38 | `IndicatorConfig()` has periods [5,10,20,50,200] and [8,12,21,26,50], RSI 14, MACD 12/26/9, bands 20 / 2.0, stochastic 14/3 |
| IndicatorFrame.AssignKeep | src/core/indicators.py:74-78 | a period that no assignment of the loop names keeps its column |
| IndicatorFrame.AssignKeys | src/core/indicators.py:74-78 | the periods after the loop are those before it and those it assigned |
| IndicatorFrame.MaPassAverages | src/core/indicators.py:72-80 | after the moving-average pass, every listed period's column holds its average, even when a period is listed twice |
| IndicatorFrame.MaPassCrosses | src/core/indicators.py:81-85 | with 50 and 200 among the periods, the golden and death crosses compare SMA_50 with SMA_200 |
| IndicatorFrame.CalculateAllAverages | src/core/indicators.py:46-70 | after `calculate_all` every configured SMA and EMA column holds its average, because no later pass overwrites one |
| IndicatorFrame.CalculateAllCrosses | src/core/indicators.py:46-85 | after `calculate_all` the crosses compare SMA_50 with SMA_200 |
| IndicatorFrame.CalculateAllColumns | src/core/indicators.py:46-242 | the result's momentum, band and volatility columns are those of the bars with the configured windows; the Keltner channels use the bars' own ATR |
| IndicatorFrame.CalculateAllAligned | src/core/indicators.py:46-70 | an aligned frame stays aligned and the caller's other columns are kept |
| IndicatorFrame.Frame.Copy | src/core/indicators.py:48 | `data.copy()` is a fresh frame with the same bars and columns |
| TechnicalIndicators.Engine.constructor | src/core/indicators.py:43-44 | a missing configuration is replaced by a fresh default one, every field at its dataclass default |
| TechnicalIndicators.Engine.CalculateAll | src/core/indicators.py:46-70 | leaves the input frame as it is and returns a fresh frame holding the input's columns with every pass's columns assigned over them |
| TechnicalIndicators.Engine.CalculateMovingAverages | src/core/indicators.py:72-87 | the frame's columns become the moving-average pass of the old ones |
| TechnicalIndicators.Engine.CalculateRsi | src/core/indicators.py:89-102 | the frame's columns become the RSI pass of the old ones |
| TechnicalIndicators.Engine.CalculateMacd | src/core/indicators.py:104-119 | the frame's columns become the MACD pass of the old ones |
| TechnicalIndicators.Engine.CalculateBollingerBands | src/core/indicators.py:121-136 | the frame's columns become the Bollinger pass of the old ones |
| TechnicalIndicators.Engine.CalculateStochastic | src/core/indicators.py:138-150 | the frame's columns become the stochastic pass of the old ones |
| TechnicalIndicators.Engine.CalculateWilliamsR | src/core/indicators.py:152-159 | the frame's columns become the Williams %R pass of the old ones |
| TechnicalIndicators.Engine.CalculateCci | src/core/indicators.py:161-169 | the frame's columns become the CCI pass of the old ones |
| TechnicalIndicators.Engine.CalculateVolumeIndicators | src/core/indicators.py:171-183 | the frame's columns become the volume pass of the old ones |
| TechnicalIndicators.Engine.CalculateAtr | src/core/indicators.py:185-196 | the frame's columns become the ATR pass of the old ones |
| TechnicalIndicators.Engine.CalculateKeltnerChannels | src/core/indicators.py:198-207 | the frame's columns become the Keltner pass of the old ones; without an ATR column, ATR is computed first and kept |
| TechnicalIndicators.Engine.CalculateIchimoku | src/core/indicators.py:209-232 | the frame's columns become the Ichimoku pass of the old ones |
| TechnicalIndicators.Engine.CalculateVwap | src/core/indicators.py:234-242 | the frame's columns become the VWAP pass of the old ones |
| TechnicalIndicators.Engine.GetSignalSummary | src/core/indicators.py:244-253 | returns a summary exactly when every signal column's last value converts; its keys are the signal columns and each value is `int()` of the last value; otherwise it names a signal column whose last value is NaN |
| TechnicalIndicators.Summarize | src/core/indicators.py:248-253 | the loop of `get_signal_summary` over a table of last values, with the same statement |
| SignalNames.Names | src/core/indicators.py:246 | `df.columns` holds exactly the names the frame has a column for |
| SignalNames.SignalColumns | src/core/indicators.py:246 | the reported columns are exactly the frame's columns whose name holds Signal, Cross, Overbought or Oversold |
| SignalNames.EndsWith | src/core/indicators.py:246 | a name that ends in one of the four words is a signal name |
| SignalNames.AverageNotSignal | src/core/indicators.py:246 | `SMA_<p>` and `EMA_<p>` are never signal names |
| SignalNames.NotSignalName | src/core/indicators.py:246 | a name where no 'S' is followed by 'i', no 'C' by 'r' and no 'O' by 'v' holds none of the four words |
| SignalNames.CrossesAreSignals | src/core/indicators.py:83-85 | the crosses and the MACD signal line are signal names |
| SignalNames.ThresholdFlagsAreSignals | src/core/indicators.py:99-100 | the overbought and oversold flags are signal names |
| SignalNames.FlagConverts | src/core/indicators.py:251 | a 0/1 flag column reports 0 or 1 |
| SignalNames.CalculateAllSignals | src/core/indicators.py:46-253 | after `calculate_all` the MACD signal line and every MACD, RSI, Bollinger and stochastic flag is reported; a flag reports 0 or 1 and the signal line a number |
| MarketAnalyzer.AtMost | src/core/market_analyzer.py:164 | `returns[returns <= v]` keeps exactly the returns at most v |
| MarketAnalyzer.Negatives | src/core/market_analyzer.py:176 | `returns[returns < 0]` keeps exactly the negative returns |
| MarketAnalyzer.CalculateRiskMetrics | src/core/market_analyzer.py:151-197 | all nine fields are zero below 30 returns; otherwise beta is 1 and alpha is 252 times the mean; the drawdown is the maximum drawdown; each ratio is 0 where its denominator is |
| MarketAnalyzer.ShortfallBelowVar | src/core/market_analyzer.py:160-164 | the expected shortfall never exceeds VaR 95 |
| MarketAnalyzer.RiskDrawdownNonPositive | src/core/market_analyzer.py:166-170 | with positive closes and 30 returns, the maximum drawdown is present and at most 0 |
| MarketAnalyzer.Classify | src/core/market_analyzer.py:218-228 | the regime rule: each label holds exactly when its test is the first to match, and it is never UNKNOWN |
| MarketAnalyzer.DetectMarketRegime | src/core/market_analyzer.py:199-230 | UNKNOWN with zero measures exactly below 20 returns; otherwise the label classifies the three measures, the trend strength is non-negative, and so is the volatility with a sound library |
| MarketAnalyzer.BetaOfItself | src/core/market_analyzer.py:266-274 | a series measured against itself has beta 1 on either branch |
| MarketAnalyzer.Lookup | src/core/market_analyzer.py:255-256 | `series[day]` is present exactly for a day in the index, and it is a return recorded on that day |
| MarketAnalyzer.CalculateCorrelations | src/core/market_analyzer.py:242-264 | no correlations exactly for an empty benchmark, frames of different lengths or fewer than 10 common dates; otherwise r-squared is the squared correlation and beta is computed on the aligned returns |
| MarketAnalyzer.CorrelationsOfItself | src/core/market_analyzer.py:242-274 | a symbol against itself has beta 1 whenever the gates let it through |
| MarketAnalyzer.TrailingRunShape | src/core/market_analyzer.py:307-312 | the running counter is the length of the trailing run of true |
| MarketAnalyzer.LongestRunBounds | src/core/market_analyzer.py:301-329 | every run of wins (losses) is at most the reported maximum |
| MarketAnalyzer.LongestRunAttained | src/core/market_analyzer.py:301-329 | the reported maximum is the length of an actual run |
| MarketAnalyzer.LongestRunSplit | src/core/market_analyzer.py:301-329 | a false entry splits the runs: the maximum is the larger of the maxima on either side of it |
| MarketAnalyzer.ZeroBreaksStreaks | src/core/market_analyzer.py:301-329 | a zero return ends every winning and every losing streak |
| MarketAnalyzer.MaxConsecutive | src/core/market_analyzer.py:303-314 | the counting loop returns the longest run of true |
| MarketAnalyzer.MaxConsecutiveWins | src/core/market_analyzer.py:301-314 | `_max_consecutive_wins` is the longest streak of strictly positive returns |
| MarketAnalyzer.MaxConsecutiveLosses | src/core/market_analyzer.py:316-329 | `_max_consecutive_losses` is the longest streak of strictly negative returns |
| MarketAnalyzer.CalculatePerformanceMetrics | src/core/market_analyzer.py:276-299 | the method with its streak loops returns the performance metrics of the closes |
| MarketAnalyzer.PerformanceMetricsMeaning | src/core/market_analyzer.py:276-299 | nothing without returns; otherwise the total return is last/first - 1 as a percentage (which is also the compounded daily returns); also the annualised volatility, a zero Sharpe ratio without volatility, and the streaks |
| MarketAnalyzer.UpperTriangleEntries | src/core/market_analyzer.py:373 | the above-diagonal entries are exactly the m[i][j] with i < j, n(n-1)/2 of them |
| MarketAnalyzer.DiversificationRatio | src/core/market_analyzer.py:366-375 | 1.0 for a single asset; missing for none |
| MarketAnalyzer.DiversificationOfUniform | src/core/market_analyzer.py:366-375 | when every pair has the same correlation c, the ratio is 1/(c·sqrt(n)) |
| MarketAnalyzer.LoadedSymbols | src/core/market_analyzer.py:333-337 | the keys of `returns_data` are exactly the requested symbols with a non-empty frame, each once |
| MarketAnalyzer.RowDays | src/core/market_analyzer.py:343 | `dropna()` of the aligned frame keeps the days on which every frame has a return |
| MarketAnalyzer.Rows | src/core/market_analyzer.py:343 | the aligned returns frame has one column per loaded symbol in every row |
| MarketAnalyzer.AnalyzePortfolio | src/core/market_analyzer.py:331-364 | corrected portfolio block: nothing exactly without loaded frames; PCA raises exactly when there are fewer rows than components |
| MarketAnalyzer.PortfolioAsWrittenRaises | src/core/market_analyzer.py:349-357 | as written, the PCA components and the weights are sized by the requested symbols, so one symbol that failed to load makes the block raise |
| MarketAnalyzer.PortfolioAgreesWhenAllLoaded | src/core/market_analyzer.py:331-364 | when every requested symbol loaded, the block as written and the corrected block agree |
| MarketAnalyzer.EqualWeightsSumToOne | src/core/market_analyzer.py:354-355 | the equal weights `np.ones(n)/n` sum to 1 |
| MarketAnalyzer.EqualWeightsAverage | src/core/market_analyzer.py:355-357 | with equal weights a portfolio return is the plain mean of its row |
| MarketAnalyzer.PortfolioVolatilityOfMeans | src/core/market_analyzer.py:355-362 | the portfolio volatility is the annualised deviation of the row means |
| MarketAnalyzer.InterpretMomentumIndicator | src/core/market_analyzer.py:140-149 | OVERBOUGHT exactly above the indicator's upper threshold; OVERSOLD exactly below the lower one otherwise; NEUTRAL for a NaN or an unknown indicator |
| MarketAnalyzer.TechnicalSummaryOf | src/core/market_analyzer.py:98-138 | the summary holds the last close; BUY exactly when it is above an SMA_20/50/200 the frame has; the momentum, ATR and volume fields the frame has columns for |
| MarketAnalyzer.ExtractTechnicalSummary | src/core/market_analyzer.py:98-138 | the method returns that summary of its frame |
| MarketAnalyzer.SymbolResultsEntries | src/core/market_analyzer.py:76-90 | the loop's result has an entry for exactly the requested symbols that loaded, each being that symbol's analysis |
| MarketAnalyzer.Analyzer.constructor | src/core/market_analyzer.py:50-53 | a missing configuration is replaced by a fresh default one, every field at its dataclass default, shared with the indicator engine |
| MarketAnalyzer.Analyzer.AnalyzeSymbol | src/core/market_analyzer.py:79-90 | one loaded symbol's report is the analysis of its frame after `calculate_all` |
| MarketAnalyzer.Analyzer.AnalyzeSymbols | src/core/market_analyzer.py:76-90 | the loop returns the entries of every loaded symbol |
| MarketAnalyzer.Analyzer.AnalyzeMarket | src/core/market_analyzer.py:55-96 | an entry per loaded symbol, plus the portfolio block as written for more than one symbol; reports a failure exactly when that block raises, so also whenever a requested symbol did not load |
| DataLoader.MissingColumns | src/core/data_loader.py:184-185 | the missing columns are exactly the required names the frame lacks |
| DataLoader.MissingColumnsOfOpenOnly | src/core/data_loader.py:184-185 | a frame with only Open lacks High, Low, Close and Volume, in that order |
| DataLoader.MissingColumnsOfNone | src/core/data_loader.py:184-185 | a frame without columns lacks all five |
| DataLoader.HighMissingCount | src/core/data_loader.py:190-191 | more than 5% missing means more than one missing row in twenty |
| DataLoader.ValidateData | src/core/data_loader.py:179-192 | raises "Empty dataset" exactly on an empty frame; otherwise raises naming the missing columns in order exactly when some are missing; otherwise returns, warning exactly when a column is more than 5% missing |
| DataLoader.LoadAllResults | src/core/data_loader.py:144-177 | one entry per requested symbol; each entry is acceptable; an old cache hit is returned as it was |
| DataLoader.LoadAllCache | src/core/data_loader.py:164-168 | the cache only grows, by validated frames fetched under the request's key |
| DataLoader.FailureGivesEmpty | src/core/data_loader.py:157-175 | a symbol that misses the cache and whose fetch fails or does not validate gets an empty frame |
| DataLoader.UnknownSourceGivesEmpty | src/core/data_loader.py:157-159 | without the cache, an unknown source gives every symbol an empty frame |
| DataLoader.Loader.constructor | src/core/data_loader.py:99-105 | the loader knows the sources yahoo and alphavantage, over the cache found on disk |
| DataLoader.Loader.GetCachedData | src/core/data_loader.py:194-211 | a cached frame is returned exactly when the key is cached |
| DataLoader.Loader.CacheData | src/core/data_loader.py:213-225 | INSERT OR REPLACE: the cache maps the key to the frame, and the rest is unchanged |
| DataLoader.Loader.LoadData | src/core/data_loader.py:125-177 | the loop's new cache and results are those of the load function, and the cache stays valid |
| Backtest.PositionValues | my-python-data-tool-main/python-data-analysis.py:99 | the position of a 0/1 signal is missing on the first bar only; it is +1 where the signal switches on, -1 where it switches off, and 0 otherwise |
| Backtest.SignalHolds | my-python-data-tool-main/python-data-analysis.py:99 | where the position is 0, the signal holds its value |
| Backtest.PositionsAlternate | my-python-data-tool-main/python-data-analysis.py:99-117 | successive nonzero positions have opposite signs: a buy is followed by a sell and a sell by a buy |
| Backtest.StrategyReturnsAt | my-python-data-tool-main/python-data-analysis.py:120 | a strategy return is missing on the first and last bar; it is the next bar's return times the position, and is nonzero only where the signal switches |
| Backtest.LongOnlyReturnsAt | my-python-data-tool-main/data-graph.py:96 | long-only returns are the next bar's return on a buy bar and 0 elsewhere, missing where the next return is |
| Backtest.DropNaOfShift | my-python-data-tool-main/python-data-analysis.py:121 | shifting a column whose first bar is missing keeps its present values |
| Backtest.CompoundedTotalIsLastCumulative | my-python-data-tool-main/python-data-analysis.py:124-125 | the corrected total is the cumulative return at the last bar that has one |
| Backtest.CompoundedTotalOfNothing | my-python-data-tool-main/python-data-analysis.py:139-140 | with no present return the corrected total is 0 |
| Backtest.BuyAndHoldTotal | my-python-data-tool-main/python-data-analysis.py:121-125 | with positive closes, buy and hold compounds to last close / first close - 1 |
| Backtest.ReportedDrawdown | my-python-data-tool-main/python-data-analysis.py:134-137 | the reported drawdown is the maximum drawdown, or 0.0 when that is missing, and is never positive |
| PythonDataAnalysis.CrossoverSignal | my-python-data-tool-main/python-data-analysis.py:95-96 | the signal is 0/1, and 1 exactly where SMA 20 > SMA 50; a missing average gives 0 |
| PythonDataAnalysis.MaskedSignal | my-python-data-tool-main/python-data-analysis.py:95-96 | zeroing the column and then writing 1.0 on the masked bars gives that signal |
| PythonDataAnalysis.CrossoverPositions | my-python-data-tool-main/python-data-analysis.py:99-117 | a buy is a bar where SMA 20 gets above SMA 50, a sell a bar where it stops being above |
| PythonDataAnalysis.SharpeRatio | my-python-data-tool-main/python-data-analysis.py:131 | 0.0 when there are no returns or their deviation is 0 |
| PythonDataAnalysis.SharpeSign | my-python-data-tool-main/python-data-analysis.py:131 | with a sound library the ratio is positive exactly when there are returns with nonzero deviation and a positive mean |
| PythonDataAnalysis.LastOrZeroOfCumulative | my-python-data-tool-main/python-data-analysis.py:139-140 | reading the last cumulative value gives the compounded total when the last bar has a return, and 0.0 otherwise |
| PythonDataAnalysis.BacktestMetrics | my-python-data-tool-main/python-data-analysis.py:128-147 | the drawdown is at most 0 and is 0 when missing; without strategy returns the Sharpe ratio, drawdown and total are all 0; each total is the compounded return when the column's last bar has a return and 0.0 otherwise |
| PythonDataAnalysis.ReturnsAsWritten | my-python-data-tool-main/python-data-analysis.py:139-140 | as written, both totals are always 0.0 |
| PythonDataAnalysis.ReturnsAsWrittenMissGain | my-python-data-tool-main/python-data-analysis.py:139-140 | for closes [1, 2], the buy-and-hold total as written is 0 while the compounded total is 1 (100%) |
| PythonDataAnalysis.Frame.constructor | my-python-data-tool-main/python-data-analysis.py:32-38 | the downloaded frame holds the closes and no added column |
| PythonDataAnalysis.Frame.CalculateIndicators | my-python-data-tool-main/python-data-analysis.py:43-78 | adds the daily return, SMA 20/50, RSI 14, EMA 12/26, MACD and its signal, the 20-bar std and the bands, and leaves the backtest's columns aligned |
| PythonDataAnalysis.Frame.BacktestStrategy | my-python-data-tool-main/python-data-analysis.py:80-149 | adds the signal, position, strategy and buy-and-hold returns and their cumulative columns, and returns the metrics of those returns, whose two totals are 0.0 for every input |
| PythonDataAnalysis.BacktestPositions | my-python-data-tool-main/python-data-analysis.py:95-121 | after both steps every position is -1, 0 or +1 (missing on the first bar), a nonzero return falls on a crossing bar, and the last bar's return is missing |
| DataGraph.GatedSignal | my-python-data-tool-main/data-graph.py:90-92 | the signal is 0/1, and 1 exactly where SMA 20 > SMA 50 and the RSI is not above 70 |
| DataGraph.MaskedSignal | my-python-data-tool-main/data-graph.py:91-92 | the crossover flags with 0.0 written over the overbought bars give that signal |
| DataGraph.GatedPositionsAlternate | my-python-data-tool-main/data-graph.py:93 | successive nonzero positions alternate between a buy and a sell |
| DataGraph.SharpeRatio | my-python-data-tool-main/data-graph.py:107 | missing exactly when there are no returns or their deviation is 0 |
| DataGraph.LastValueOfCumulative | my-python-data-tool-main/data-graph.py:116-117 | the last cumulative value is the compounded total when the last bar has a return, and missing otherwise |
| DataGraph.BacktestMetrics | my-python-data-tool-main/data-graph.py:104-120 | a present drawdown is at most 0; it is missing exactly when the maximum drawdown is; without strategy returns the Sharpe ratio, drawdown and total are missing; each total is the compounded return when the column's last bar has a return and missing otherwise |
| DataGraph.ReturnsAsWritten | my-python-data-tool-main/data-graph.py:116-117 | as written, both totals read a last bar that is always missing |
| DataGraph.ReturnsAsWrittenMissGain | my-python-data-tool-main/data-graph.py:116-117 | for closes [1, 2], the buy-and-hold total as written is missing while the compounded total is 1 (100%) |
| DataGraph.Frame.constructor | my-python-data-tool-main/data-graph.py:32-38 | the downloaded frame holds the closes and no added column |
| DataGraph.Frame.CalculateIndicators | my-python-data-tool-main/data-graph.py:43-73 | adds the daily return, SMA 20/50, RSI 14, EMA 12/26, MACD and its signal, and leaves the backtest's columns aligned |
| DataGraph.Frame.BacktestStrategy | my-python-data-tool-main/data-graph.py:75-122 | adds the gated signal, position, long-only and buy-and-hold returns and their cumulative columns, and returns the metrics of those returns, whose two totals are missing (`nan%`) for every input |
| DataGraph.BacktestReturns | my-python-data-tool-main/data-graph.py:90-97 | after both steps the long-only return is the next bar's return on a buy bar and 0 elsewhere, and buy and hold earns the next bar's return |
| DataGraph.BuyAndHoldReported | my-python-data-tool-main/data-graph.py:97-117 | with positive closes the reported buy-and-hold total is missing, while the compounded buy-and-hold return is last close / first close - 1 |

## Left out

- Data sources (`YahooFinanceSource`, `AlphaVantageSource`), `get_real_time_data`, the sqlite file and pickling are I/O. A fetch is a function parameter of the request, and the cache is a map.
- DataLoader.Loader.GetCachedData: does not model the one-day expiry (`timestamp > datetime('now', '-1 day')`), because the model has no clock. It also does not model a failing sqlite read or write, which the source only logs.
- Logging, printing and plotting are left out: the scripts' buy/sell messages (python-data-analysis.py lines 102-117), their charts and their `main` flow.
- PythonDataAnalysis.BacktestMetrics and DataGraph.BacktestMetrics: return the four numbers only. The `f"{x * 100:.2f}%"` formatting is not modelled.
- The numerical library (standard deviation, square root, percentiles, correlation, `linregress`, the Hurst estimate, PCA) is an oracle and its formulas are not modelled. One consequence: the sample deviation of a single value is NaN in pandas but is whatever the oracle returns here.
- Floating point is modelled as exact reals. Infinities and NaN from a division by zero are one "missing" value.
- DataGraph.SharpeRatio: folds the script's inf or nan (a zero deviation, or no returns) into a single missing value.
- DataGraph.Frame.BacktestStrategy models the intended effect of line 92. That line is a chained assignment, `data['Signal'][mask] = 0.0`, and under pandas copy-on-write it may leave the frame unchanged.
- DataGraph.Frame.BacktestStrategy requires a non-empty frame. On an empty frame the script's `iloc[-1]` raises, and `get_data` never returns one (data-graph.py lines 35-36).
- DataGraph.BacktestMetrics requires non-empty return columns for the same reason: `iloc[-1]` of an empty column raises, and that error path is not modelled.
- MarketAnalyzer.DetectMarketRegime, MarketAnalyzer.CalculatePerformanceMetrics and MarketAnalyzer.Analyzer.AnalyzeMarket: require positive closes, so that every daily return is present. A zero close (a pandas infinity) is not modelled on those paths.
- SignalNames.AverageNotSignal: only the SMA_ and EMA_ columns are proved not to be signal names. The other fixed engine column names are outside the proof.
- MarketAnalyzer.DiversificationRatio: a missing value stands for a non-finite ratio. Its contract states only the single-asset and empty cases; DiversificationOfUniform states the value for uniform correlations.
- MarketAnalyzer.Analyzer.AnalyzeMarket takes the frames `load_data` returned as a parameter. The live loader call of line 73 is not wired in.
- `_calculate_risk_metrics` on a frame without a Close column (a KeyError in the source) is not modelled: the bars always have a close.
- The scripts' `calculate_indicators` compute RSI and MACD inline. The model reuses the engine's `Indicators.Rsi` and `Indicators.MacdLine` because the formulas and windows are the same.
- The scripts' `get_data` (download and `ffill`) is I/O: a frame is given by its closes.

## Findings

| source | as written | input that shows it | evidently intended | confidence | as-written member | corrected member |
|---|---|---|---|---|---|---|
| src/core/market_analyzer.py:349-357 | PCA is asked for `min(3, len(symbols))` components and the weights have `len(symbols)` entries, but the returns frame has one column per symbol whose data loaded | two requested symbols, only one of which loaded: PCA is asked for 2 components of 1 column, and a 1-column frame is multiplied by 2 weights; both raise | components and weights sized by the loaded columns | not executed | MarketAnalyzer.PortfolioAsWrittenRaises | MarketAnalyzer.AnalyzePortfolio |
| my-python-data-tool-main/python-data-analysis.py:139-140 | the totals read the cumulative column on the last bar, which `shift(-1)` always leaves missing, so the fallback reports 0.0 | closes [1.0, 2.0]: buy and hold reports 0.00% | the compounded return of all present returns: 100% here | not executed | PythonDataAnalysis.ReturnsAsWrittenMissGain | Backtest.CompoundedTotalIsLastCumulative |
| my-python-data-tool-main/data-graph.py:116-117 | the totals read the cumulative column on the last bar, which is always missing, so they print `nan%` | closes [1.0, 2.0]: buy and hold prints nan% | the compounded return of all present returns: 100% here | not executed | DataGraph.ReturnsAsWrittenMissGain | Backtest.CompoundedTotalIsLastCumulative |

The operations themselves follow the code as written: `AnalyzeMarket` uses the portfolio block as written, and both scripts' `BacktestStrategy` report the totals their code produces. The corrected definitions stand beside them, with the intended property proved.
