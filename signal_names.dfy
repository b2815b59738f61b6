/** Which of a frame's columns `get_signal_summary` reports, and the value it
    reports for each (src/core/indicators.py). */
module SignalNames {
  import opened Series
  import opened Oracles
  import opened Indicators
  import opened IndicatorFrame

  /** A column the summary reports: its name contains one of four words. */
  predicate IsSignalName(s: string)
  {
    Contains(s, "Signal") || Contains(s, "Cross") || Contains(s, "Overbought") || Contains(s, "Oversold")
  }

  predicate IsSignal(n: ColumnName)
  {
    IsSignalName(Text(n))
  }

  // ---------------------------------------------------------------- reading words in names

  /** No `a` in s is directly followed by `b`. */
  predicate NoPair(s: string, a: char, b: char)
  {
    forall i :: 0 <= i < |s| - 1 ==> !(s[i] == a && s[i + 1] == b)
  }

  lemma PairAbsent(s: string, w: string)
    requires |w| >= 2 && NoPair(s, w[0], w[1])
    ensures !Contains(s, w)
  {
    forall i | 0 <= i <= |s| - |w|
      ensures !OccursAt(s, w, i)
    {
      assert s[i..i + |w|][0] == s[i] && s[i..i + |w|][1] == s[i + 1];
    }
  }

  /** A name in which no 'S' is followed by 'i', no 'C' by 'r' and no 'O'
      by 'v' holds none of the four words. */
  lemma NotSignalName(s: string)
    requires NoPair(s, 'S', 'i') && NoPair(s, 'C', 'r') && NoPair(s, 'O', 'v')
    ensures !IsSignalName(s)
  {
    PairAbsent(s, "Signal");
    PairAbsent(s, "Cross");
    PairAbsent(s, "Overbought");
    PairAbsent(s, "Oversold");
  }

  predicate IsDigit(ch: char)
  {
    '0' <= ch <= '9'
  }

  lemma {:induction false} NatToStringDigits(n: nat)
    ensures forall i :: 0 <= i < |NatToString(n)| ==> IsDigit(NatToString(n)[i])
    decreases n
  {
    if n >= 10 {
      NatToStringDigits(n / 10);
    }
  }

  /** `SMA_<p>` and `EMA_<p>` are never signal names. */
  lemma AverageNotSignal(prefix: string, p: nat)
    requires prefix == "SMA_" || prefix == "EMA_"
    ensures !IsSignalName(prefix + NatToString(p))
  {
    var s := prefix + NatToString(p);
    NatToStringDigits(p);
    forall i | 0 <= i < |s| - 1
      ensures s[i] != 'S' || s[i + 1] != 'i'
      ensures s[i] != 'C' || s[i + 1] != 'r'
      ensures s[i] != 'O' || s[i + 1] != 'v'
    {
      if i + 1 < |prefix| {
        assert s[i] == prefix[i] && s[i + 1] == prefix[i + 1];
      } else {
        assert s[i + 1] == NatToString(p)[i + 1 - |prefix|];
      }
    }
    NotSignalName(s);
  }

  /** A name that ends in one of the four words is a signal name. */
  lemma EndsWith(p: string, w: string, s: string)
    requires w in {"Signal", "Cross", "Overbought", "Oversold"} && s == p + w
    ensures IsSignalName(s)
  {
    assert s[|p|..|p| + |w|] == w;
    assert OccursAt(s, w, |p|);
  }

  /** The engine's signal columns: the crosses, the MACD signal line and the
      overbought/oversold flags. */
  const EngineSignals: set<ColumnName> := CrossSignals + ThresholdSignals
  const CrossSignals: set<ColumnName> := {Golden_Cross, Death_Cross, MACD_Signal, MACD_Bullish_Cross, MACD_Bearish_Cross}
  const ThresholdSignals: set<ColumnName> := {
    RSI_Overbought, RSI_Oversold, BB_Overbought, BB_Oversold, Stoch_Overbought, Stoch_Oversold}

  /** The crosses and the MACD signal line are reported. */
  lemma CrossesAreSignals(n: ColumnName)
    requires n in CrossSignals
    ensures IsSignal(n)
  {
    match n
    case Golden_Cross => EndsWith("Golden_", "Cross", "Golden_Cross");
    case Death_Cross => EndsWith("Death_", "Cross", "Death_Cross");
    case MACD_Signal => EndsWith("MACD_", "Signal", "MACD_Signal");
    case MACD_Bullish_Cross => EndsWith("MACD_Bullish_", "Cross", "MACD_Bullish_Cross");
    case MACD_Bearish_Cross => EndsWith("MACD_Bearish_", "Cross", "MACD_Bearish_Cross");
  }

  /** The overbought and oversold flags are reported. */
  lemma ThresholdFlagsAreSignals(n: ColumnName)
    requires n in ThresholdSignals
    ensures IsSignal(n)
  {
    match n
    case RSI_Overbought => EndsWith("RSI_", "Overbought", "RSI_Overbought");
    case RSI_Oversold => EndsWith("RSI_", "Oversold", "RSI_Oversold");
    case BB_Overbought => EndsWith("BB_", "Overbought", "BB_Overbought");
    case BB_Oversold => EndsWith("BB_", "Oversold", "BB_Oversold");
    case Stoch_Overbought => EndsWith("Stoch_", "Overbought", "Stoch_Overbought");
    case Stoch_Oversold => EndsWith("Stoch_", "Oversold", "Stoch_Oversold");
  }

  // ---------------------------------------------------------------- the frame's columns

  /** The engine's column names that take no period. */
  const FixedNames: set<ColumnName> := {
    Golden_Cross, Death_Cross, RSI, RSI_Overbought, RSI_Oversold,
    MACD, MACD_Signal, MACD_Histogram, MACD_Bullish_Cross, MACD_Bearish_Cross,
    BB_Upper, BB_Lower, BB_Middle, BB_Width, BB_Position, BB_Overbought, BB_Oversold,
    Stoch_K, Stoch_D, Stoch_Overbought, Stoch_Oversold, Williams_R, CCI,
    OBV, Volume_ROC, Volume_MA, Volume_Ratio, ATR, KC_Upper, KC_Lower, KC_Middle,
    Ichimoku_Tenkan, Ichimoku_Kijun, Ichimoku_Senkou_A, Ichimoku_Senkou_B, Ichimoku_Chikou, VWAP}

  /** The names a frame could hold a column for. */
  function Candidates(c: Columns): set<ColumnName>
  {
    (set p | p in c.sma :: SMA(p)) + (set p | p in c.ema :: EMA(p)) + FixedNames +
    (set s | s in c.other :: Other(s))
  }

  lemma CandidatesComplete(c: Columns, n: ColumnName)
    requires Get(c, n).Some?
    ensures n in Candidates(c)
  {
    match n
    case SMA(p) => assert SMA(p) in (set p | p in c.sma :: SMA(p));
    case EMA(p) => assert EMA(p) in (set p | p in c.ema :: EMA(p));
    case Other(s) => assert Other(s) in (set s | s in c.other :: Other(s));
    case _ => assert n in FixedNames;
  }

  /** `df.columns` apart from the input prices: exactly the names the frame
      holds a column for. */
  function Names(c: Columns): (r: set<ColumnName>)
    ensures forall n :: n in r <==> Get(c, n).Some?
  {
    forall n | Get(c, n).Some?
      ensures n in Candidates(c)
    {
      CandidatesComplete(c, n);
    }
    set n | n in Candidates(c) && Get(c, n).Some?
  }

  /** The columns `get_signal_summary` reports. */
  function SignalColumns(c: Columns): (r: set<ColumnName>)
    ensures forall n :: n in r <==> Get(c, n).Some? && IsSignal(n)
  {
    set n | n in Names(c) && IsSignal(n)
  }

  /** The value reported for a column: 0 for an empty frame, and otherwise
      `int()` of its last value, which fails (ValueError) on NaN. */
  function Convert(col: Column): Option<int>
  {
    if |col| == 0 then Some(0)
    else match col[|col| - 1]
      case None => None
      case Some(x) => Some(TruncToInt(x))
  }

  /** A 0/1 flag column reports 0 or 1. */
  lemma FlagConverts(col: Column)
    requires forall i :: 0 <= i < |col| ==> col[i] == Some(0.0) || col[i] == Some(1.0)
    ensures Convert(col) == Some(0) || Convert(col) == Some(1)
  {
    if |col| > 0 {
      assert col[|col| - 1] == Some(0.0) || col[|col| - 1] == Some(1.0);
    }
  }

  /** The result of `get_signal_summary`: the reported values by column, or
      the column whose last value `int()` could not convert. */
  datatype Summary = Summary(values: map<ColumnName, int>) | NotConvertible(column: ColumnName)

  /** A column of 0/1 flags. */
  predicate IsFlags(o: Option<Column>)
  {
    o.Some? && forall i :: 0 <= i < |o.value| ==> o.value[i] == Some(0.0) || o.value[i] == Some(1.0)
  }

  /** A column without missing values. */
  predicate IsComplete(o: Option<Column>)
  {
    o.Some? && forall i :: 0 <= i < |o.value| ==> o.value[i].Some?
  }

  /** The engine's signal columns other than the moving-average crosses are
      all present: the MACD signal line without gaps, the others as flags. */
  predicate SignalsReady(r: Columns)
  {
    IsComplete(r.macdSignal) && IsFlags(r.macdBullishCross) && IsFlags(r.macdBearishCross) &&
    IsFlags(r.rsiOverbought) && IsFlags(r.rsiOversold) && IsFlags(r.bbOverbought) && IsFlags(r.bbOversold) &&
    IsFlags(r.stochOverbought) && IsFlags(r.stochOversold)
  }

  lemma CalculateAllReady(cfg: IndicatorConfig, num: Numerics, bars: seq<Bar>, c: Columns)
    requires cfg.Valid() && MapFits(c.sma, |bars|)
    ensures SignalsReady(AllColumns(cfg, num, bars, c))
  {
  }

  /** In such a frame those columns are reported: a flag reports 0 or 1 and
      the signal line a number. */
  lemma ReadyReported(r: Columns, n: ColumnName)
    requires SignalsReady(r) && n in EngineSignals - {Golden_Cross, Death_Cross}
    ensures n in SignalColumns(r)
  {
    assert Get(r, n).Some?;
    if n in CrossSignals {
      CrossesAreSignals(n);
    } else {
      ThresholdFlagsAreSignals(n);
    }
    Reported(r, n);
  }

  lemma Reported(c: Columns, n: ColumnName)
    requires Get(c, n).Some? && IsSignal(n)
    ensures n in SignalColumns(c)
  {
  }

  lemma ReadyValues(r: Columns, n: ColumnName)
    requires SignalsReady(r) && n in EngineSignals - {Golden_Cross, Death_Cross}
    ensures n == MACD_Signal ==> Convert(Get(r, n).value).Some?
    ensures n != MACD_Signal ==> Convert(Get(r, n).value) == Some(0) || Convert(Get(r, n).value) == Some(1)
  {
    match n
    case MACD_Signal =>
    case MACD_Bullish_Cross => FlagConverts(r.macdBullishCross.value);
    case MACD_Bearish_Cross => FlagConverts(r.macdBearishCross.value);
    case RSI_Overbought => FlagConverts(r.rsiOverbought.value);
    case RSI_Oversold => FlagConverts(r.rsiOversold.value);
    case BB_Overbought => FlagConverts(r.bbOverbought.value);
    case BB_Oversold => FlagConverts(r.bbOversold.value);
    case Stoch_Overbought => FlagConverts(r.stochOverbought.value);
    case Stoch_Oversold => FlagConverts(r.stochOversold.value);
  }

  /** After `calculate_all`, the MACD signal line and every MACD, RSI,
      Bollinger and stochastic flag is a reported column; a flag reports 0 or 1
      and the signal line reports a number. */
  lemma CalculateAllSignals(cfg: IndicatorConfig, num: Numerics, bars: seq<Bar>, c: Columns, n: ColumnName)
    requires cfg.Valid() && MapFits(c.sma, |bars|)
    requires n in EngineSignals - {Golden_Cross, Death_Cross}
    ensures var r := AllColumns(cfg, num, bars, c);
      n in SignalColumns(r) &&
      (n == MACD_Signal ==> Convert(Get(r, n).value).Some?) &&
      (n != MACD_Signal ==> Convert(Get(r, n).value) == Some(0) || Convert(Get(r, n).value) == Some(1))
  {
    CalculateAllReady(cfg, num, bars, c);
    ReadyReported(AllColumns(cfg, num, bars, c), n);
    ReadyValues(AllColumns(cfg, num, bars, c), n);
  }
}
