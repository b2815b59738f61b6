/** The indicator engine's state: its configuration, the data frame that
    `calculate_all` threads through its passes, and the signal summary
    (src/core/indicators.py). The column formulas live in module Indicators;
    here each pass assigns its columns into the frame in place. */
module IndicatorFrame {
  import opened Series
  import opened Oracles
  import opened Indicators

  // ---------------------------------------------------------------- configuration

  const DefaultSmaPeriods: seq<nat> := [5, 10, 20, 50, 200]
  const DefaultEmaPeriods: seq<nat> := [8, 12, 21, 26, 50]

  /** The `IndicatorConfig` dataclass; a period list left as None is filled in
      with its default after construction. */
  class IndicatorConfig {
    var smaPeriods: seq<nat>
    var emaPeriods: seq<nat>
    var rsiPeriod: nat
    var macdFast: nat
    var macdSlow: nat
    var macdSignal: nat
    var bbPeriod: nat
    var bbStd: real
    var stochasticK: nat
    var stochasticD: nat

    /** Every window and every `ewm` span is at least one bar (pandas rejects
        smaller ones). */
    predicate Valid()
      reads this
    {
      (forall i :: 0 <= i < |smaPeriods| ==> smaPeriods[i] >= 1) &&
      (forall i :: 0 <= i < |emaPeriods| ==> emaPeriods[i] >= 1) &&
      rsiPeriod >= 1 && macdFast >= 1 && macdSlow >= 1 && macdSignal >= 1 &&
      bbPeriod >= 1 && stochasticK >= 1 && stochasticD >= 1
    }

    constructor (smaPeriods: Option<seq<nat>>, emaPeriods: Option<seq<nat>>,
                 rsiPeriod: nat, macdFast: nat, macdSlow: nat, macdSignal: nat,
                 bbPeriod: nat, bbStd: real, stochasticK: nat, stochasticD: nat)
      ensures this.smaPeriods == if smaPeriods.Some? then smaPeriods.value else DefaultSmaPeriods
      ensures this.emaPeriods == if emaPeriods.Some? then emaPeriods.value else DefaultEmaPeriods
      ensures this.rsiPeriod == rsiPeriod && this.macdFast == macdFast && this.macdSlow == macdSlow
      ensures this.macdSignal == macdSignal && this.bbPeriod == bbPeriod && this.bbStd == bbStd
      ensures this.stochasticK == stochasticK && this.stochasticD == stochasticD
    {
      this.smaPeriods := if smaPeriods.Some? then smaPeriods.value else [];
      this.emaPeriods := if emaPeriods.Some? then emaPeriods.value else [];
      this.rsiPeriod, this.macdFast, this.macdSlow, this.macdSignal := rsiPeriod, macdFast, macdSlow, macdSignal;
      this.bbPeriod, this.bbStd, this.stochasticK, this.stochasticD := bbPeriod, bbStd, stochasticK, stochasticD;
      new;
      // __post_init__
      if smaPeriods.None? {
        this.smaPeriods := DefaultSmaPeriods;
      }
      if emaPeriods.None? {
        this.emaPeriods := DefaultEmaPeriods;
      }
    }

    /** Every field holds the dataclass default. */
    predicate IsDefault()
      reads this
    {
      smaPeriods == DefaultSmaPeriods && emaPeriods == DefaultEmaPeriods &&
      rsiPeriod == 14 && macdFast == 12 && macdSlow == 26 && macdSignal == 9 &&
      bbPeriod == 20 && bbStd == 2.0 && stochasticK == 14 && stochasticD == 3
    }

    /** `IndicatorConfig()` with every default. */
    constructor Default()
      ensures smaPeriods == DefaultSmaPeriods && emaPeriods == DefaultEmaPeriods
      ensures rsiPeriod == 14 && macdFast == 12 && macdSlow == 26 && macdSignal == 9
      ensures bbPeriod == 20 && bbStd == 2.0 && stochasticK == 14 && stochasticD == 3
      ensures IsDefault() && Valid()
    {
      smaPeriods, emaPeriods := DefaultSmaPeriods, DefaultEmaPeriods;
      rsiPeriod, macdFast, macdSlow, macdSignal := 14, 12, 26, 9;
      bbPeriod, bbStd, stochasticK, stochasticD := 20, 2.0, 14, 3;
    }
  }

  // ---------------------------------------------------------------- column names

  /** The names of a frame's columns: those the engine assigns, spelled as
      in the frame (`SMA(20)` is `SMA_20`), and any other column. */
  datatype ColumnName =
    | SMA(period: nat) | EMA(period: nat) | Golden_Cross | Death_Cross
    | RSI | RSI_Overbought | RSI_Oversold
    | MACD | MACD_Signal | MACD_Histogram | MACD_Bullish_Cross | MACD_Bearish_Cross
    | BB_Upper | BB_Lower | BB_Middle | BB_Width | BB_Position | BB_Overbought | BB_Oversold
    | Stoch_K | Stoch_D | Stoch_Overbought | Stoch_Oversold
    | Williams_R | CCI | OBV | Volume_ROC | Volume_MA | Volume_Ratio | ATR
    | KC_Upper | KC_Lower | KC_Middle
    | Ichimoku_Tenkan | Ichimoku_Kijun | Ichimoku_Senkou_A | Ichimoku_Senkou_B | Ichimoku_Chikou
    | VWAP
    | Other(text: string)

  /** The column's name as a string. */
  function Text(n: ColumnName): string
  {
    match n
    case SMA(p) => "SMA_" + NatToString(p)
    case EMA(p) => "EMA_" + NatToString(p)
    case Golden_Cross => "Golden_Cross"
    case Death_Cross => "Death_Cross"
    case RSI => "RSI"
    case RSI_Overbought => "RSI_Overbought"
    case RSI_Oversold => "RSI_Oversold"
    case MACD => "MACD"
    case MACD_Signal => "MACD_Signal"
    case MACD_Histogram => "MACD_Histogram"
    case MACD_Bullish_Cross => "MACD_Bullish_Cross"
    case MACD_Bearish_Cross => "MACD_Bearish_Cross"
    case BB_Upper => "BB_Upper"
    case BB_Lower => "BB_Lower"
    case BB_Middle => "BB_Middle"
    case BB_Width => "BB_Width"
    case BB_Position => "BB_Position"
    case BB_Overbought => "BB_Overbought"
    case BB_Oversold => "BB_Oversold"
    case Stoch_K => "Stoch_K"
    case Stoch_D => "Stoch_D"
    case Stoch_Overbought => "Stoch_Overbought"
    case Stoch_Oversold => "Stoch_Oversold"
    case Williams_R => "Williams_R"
    case CCI => "CCI"
    case OBV => "OBV"
    case Volume_ROC => "Volume_ROC"
    case Volume_MA => "Volume_MA"
    case Volume_Ratio => "Volume_Ratio"
    case ATR => "ATR"
    case KC_Upper => "KC_Upper"
    case KC_Lower => "KC_Lower"
    case KC_Middle => "KC_Middle"
    case Ichimoku_Tenkan => "Ichimoku_Tenkan"
    case Ichimoku_Kijun => "Ichimoku_Kijun"
    case Ichimoku_Senkou_A => "Ichimoku_Senkou_A"
    case Ichimoku_Senkou_B => "Ichimoku_Senkou_B"
    case Ichimoku_Chikou => "Ichimoku_Chikou"
    case VWAP => "VWAP"
    case Other(s) => s
  }

  const PriceNames: set<string> := {"Open", "High", "Low", "Close", "Volume"}

  /** A string that names an input column or a column the engine assigns. */
  ghost predicate Reserved(s: string)
  {
    s in PriceNames || exists n: ColumnName :: !n.Other? && Text(n) == s
  }

  // ---------------------------------------------------------------- the data frame

  /** A DataFrame's named columns: a slot for each column the engine assigns
      (the SMA and EMA columns by period) and the other columns by name. */
  datatype Columns = Columns(
    sma: map<nat, Column>, ema: map<nat, Column>, goldenCross: Option<Column>, deathCross: Option<Column>,
    rsi: Option<Column>, rsiOverbought: Option<Column>, rsiOversold: Option<Column>,
    macd: Option<Column>, macdSignal: Option<Column>, macdHistogram: Option<Column>,
    macdBullishCross: Option<Column>, macdBearishCross: Option<Column>,
    bbUpper: Option<Column>, bbLower: Option<Column>, bbMiddle: Option<Column>, bbWidth: Option<Column>,
    bbPosition: Option<Column>, bbOverbought: Option<Column>, bbOversold: Option<Column>,
    stochK: Option<Column>, stochD: Option<Column>, stochOverbought: Option<Column>, stochOversold: Option<Column>,
    williamsR: Option<Column>, cci: Option<Column>,
    obv: Option<Column>, volumeRoc: Option<Column>, volumeMa: Option<Column>, volumeRatio: Option<Column>,
    atr: Option<Column>, kcUpper: Option<Column>, kcLower: Option<Column>, kcMiddle: Option<Column>,
    tenkan: Option<Column>, kijun: Option<Column>, senkouA: Option<Column>, senkouB: Option<Column>,
    chikou: Option<Column>, vwap: Option<Column>,
    other: map<string, Column>)

  /** A frame whose only named columns are the given other ones. */
  function OnlyOther(other: map<string, Column>): (c: Columns)
    ensures c.other == other
  {
    Columns(map[], map[], None, None, None, None, None, None, None, None, None, None, None, None, None, None,
      None, None, None, None, None, None, None, None, None, None, None, None, None, None, None, None, None,
      None, None, None, None, None, None, other)
  }

  /** `df[name]`, when the frame has that column. */
  function Get(c: Columns, n: ColumnName): Option<Column>
  {
    match n
    case SMA(p) => if p in c.sma then Some(c.sma[p]) else None
    case EMA(p) => if p in c.ema then Some(c.ema[p]) else None
    case Golden_Cross => c.goldenCross
    case Death_Cross => c.deathCross
    case RSI => c.rsi
    case RSI_Overbought => c.rsiOverbought
    case RSI_Oversold => c.rsiOversold
    case MACD => c.macd
    case MACD_Signal => c.macdSignal
    case MACD_Histogram => c.macdHistogram
    case MACD_Bullish_Cross => c.macdBullishCross
    case MACD_Bearish_Cross => c.macdBearishCross
    case BB_Upper => c.bbUpper
    case BB_Lower => c.bbLower
    case BB_Middle => c.bbMiddle
    case BB_Width => c.bbWidth
    case BB_Position => c.bbPosition
    case BB_Overbought => c.bbOverbought
    case BB_Oversold => c.bbOversold
    case Stoch_K => c.stochK
    case Stoch_D => c.stochD
    case Stoch_Overbought => c.stochOverbought
    case Stoch_Oversold => c.stochOversold
    case Williams_R => c.williamsR
    case CCI => c.cci
    case OBV => c.obv
    case Volume_ROC => c.volumeRoc
    case Volume_MA => c.volumeMa
    case Volume_Ratio => c.volumeRatio
    case ATR => c.atr
    case KC_Upper => c.kcUpper
    case KC_Lower => c.kcLower
    case KC_Middle => c.kcMiddle
    case Ichimoku_Tenkan => c.tenkan
    case Ichimoku_Kijun => c.kijun
    case Ichimoku_Senkou_A => c.senkouA
    case Ichimoku_Senkou_B => c.senkouB
    case Ichimoku_Chikou => c.chikou
    case VWAP => c.vwap
    case Other(s) => if s in c.other then Some(c.other[s]) else None
  }

  predicate Fits(o: Option<Column>, n: nat)
  {
    o.Some? ==> |o.value| == n
  }

  predicate MapFits<K>(m: map<K, Column>, n: nat)
  {
    forall k :: k in m ==> |m[k]| == n
  }

  /** Every column has one entry per bar. */
  predicate Aligned(c: Columns, n: nat)
  {
    MapFits(c.sma, n) && MapFits(c.ema, n) && Fits(c.goldenCross, n) && Fits(c.deathCross, n) &&
    Fits(c.rsi, n) && Fits(c.rsiOverbought, n) && Fits(c.rsiOversold, n) &&
    Fits(c.macd, n) && Fits(c.macdSignal, n) && Fits(c.macdHistogram, n) &&
    Fits(c.macdBullishCross, n) && Fits(c.macdBearishCross, n) &&
    Fits(c.bbUpper, n) && Fits(c.bbLower, n) && Fits(c.bbMiddle, n) && Fits(c.bbWidth, n) &&
    Fits(c.bbPosition, n) && Fits(c.bbOverbought, n) && Fits(c.bbOversold, n) &&
    Fits(c.stochK, n) && Fits(c.stochD, n) && Fits(c.stochOverbought, n) && Fits(c.stochOversold, n) &&
    Fits(c.williamsR, n) && Fits(c.cci, n) &&
    Fits(c.obv, n) && Fits(c.volumeRoc, n) && Fits(c.volumeMa, n) && Fits(c.volumeRatio, n) &&
    Fits(c.atr, n) && Fits(c.kcUpper, n) && Fits(c.kcLower, n) && Fits(c.kcMiddle, n) &&
    Fits(c.tenkan, n) && Fits(c.kijun, n) && Fits(c.senkouA, n) && Fits(c.senkouB, n) &&
    Fits(c.chikou, n) && Fits(c.vwap, n) && MapFits(c.other, n)
  }

  /** A column found by name has one entry per bar. */
  lemma AlignedGet(c: Columns, n: nat, name: ColumnName)
    requires Aligned(c, n)
    ensures Fits(Get(c, name), n)
  {
  }

  /** The frame's other columns are not spelled like an input column or an
      engine column, so every name denotes one column. */
  ghost predicate OthersUnreserved(c: Columns)
  {
    forall s :: s in c.other ==> !Reserved(s)
  }

  /** A DataFrame: the OHLCV input bars, read by every pass, and the named
      columns, which the passes add or overwrite. */
  class Frame {
    const bars: seq<Bar>
    var cols: Columns

    ghost predicate Valid()
      reads this
    {
      Aligned(cols, |bars|) && OthersUnreserved(cols)
    }

    constructor (bars: seq<Bar>, cols: Columns)
      ensures this.bars == bars && this.cols == cols
    {
      this.bars, this.cols := bars, cols;
    }

    /** `data.copy()` */
    method Copy() returns (f: Frame)
      ensures fresh(f) && f.bars == bars && f.cols == cols
    {
      f := new Frame(bars, cols);
    }
  }

  // ---------------------------------------------------------------- assignments by period

  /** `df[f'SMA_{period}'] = column` (resp. EMA) */
  type Write = (nat, Column)

  function Periods(ws: seq<Write>): (r: seq<nat>)
    ensures |r| == |ws| && forall i :: 0 <= i < |ws| ==> r[i] == ws[i].0
  {
    seq(|ws|, i requires 0 <= i < |ws| => ws[i].0)
  }

  /** The columns by period after the assignments ws, in order. */
  function Assign(m: map<nat, Column>, ws: seq<Write>): map<nat, Column>
    decreases |ws|
  {
    if ws == [] then m else Assign(m[ws[0].0 := ws[0].1], ws[1..])
  }

  lemma {:induction false} AssignConcat(m: map<nat, Column>, a: seq<Write>, b: seq<Write>)
    ensures Assign(m, a + b) == Assign(Assign(m, a), b)
    decreases |a|
  {
    if a == [] {
      assert a + b == b;
    } else {
      assert (a + b)[0] == a[0] && (a + b)[1..] == a[1..] + b;
      AssignConcat(m[a[0].0 := a[0].1], a[1..], b);
    }
  }

  lemma AssignSnoc(m: map<nat, Column>, ws: seq<Write>, p: nat, c: Column)
    ensures Assign(m, ws + [(p, c)]) == Assign(m, ws)[p := c]
  {
    AssignConcat(m, ws, [(p, c)]);
  }

  /** A period none of the assignments names keeps its column. */
  lemma {:induction false} AssignKeep(m: map<nat, Column>, ws: seq<Write>, k: nat)
    requires k !in Periods(ws)
    ensures var r := Assign(m, ws); (k in r <==> k in m) && (k in m ==> r[k] == m[k])
    decreases |ws|
  {
    if ws != [] {
      assert Periods(ws[1..]) == Periods(ws)[1..];
      AssignKeep(m[ws[0].0 := ws[0].1], ws[1..], k);
    }
  }

  /** The periods after the assignments are those before and those assigned. */
  lemma {:induction false} AssignKeys(m: map<nat, Column>, ws: seq<Write>)
    ensures forall k :: k in Assign(m, ws) <==> k in m || k in Periods(ws)
    decreases |ws|
  {
    if ws != [] {
      assert Periods(ws) == [ws[0].0] + Periods(ws[1..]);
      AssignKeys(m[ws[0].0 := ws[0].1], ws[1..]);
    }
  }

  /** Assignments of columns of length n keep every column of length n. */
  lemma {:induction false} AssignFits(m: map<nat, Column>, ws: seq<Write>, n: nat)
    requires MapFits(m, n) && forall i :: 0 <= i < |ws| ==> |ws[i].1| == n
    ensures MapFits(Assign(m, ws), n)
    decreases |ws|
  {
    if ws != [] {
      AssignFits(m[ws[0].0 := ws[0].1], ws[1..], n);
    }
  }

  /** A period every assignment to which writes the same column holds it. */
  lemma {:induction false} AssignUniform(m: map<nat, Column>, ws: seq<Write>, i: int)
    requires 0 <= i < |ws|
    requires forall j :: 0 <= j < |ws| && ws[j].0 == ws[i].0 ==> ws[j].1 == ws[i].1
    ensures var r := Assign(m, ws); ws[i].0 in r && r[ws[i].0] == ws[i].1
    decreases |ws|
  {
    var k, rest := ws[i].0, ws[1..];
    if i > 0 {
      AssignUniform(m[ws[0].0 := ws[0].1], rest, i - 1);
    } else if k in Periods(rest) {
      var j :| 0 <= j < |rest| && Periods(rest)[j] == k;
      AssignUniform(m[k := ws[0].1], rest, j);
    } else {
      AssignKeep(m[k := ws[0].1], rest, k);
    }
  }

  // ---------------------------------------------------------------- moving averages

  predicate ValidPeriods(ps: seq<nat>)
  {
    forall i :: 0 <= i < |ps| ==> ps[i] >= 1
  }

  /** The assignments of `for period in ps: df[f'SMA_{period}'] = ...`. */
  function SmaWrites(closes: seq<real>, ps: seq<nat>): (ws: seq<Write>)
    requires ValidPeriods(ps)
    ensures |ws| == |ps| && forall i :: 0 <= i < |ws| ==> |ws[i].1| == |closes|
  {
    seq(|ps|, j requires 0 <= j < |ps| => (ps[j], Sma(closes, ps[j])))
  }

  /** `Close.ewm(span=p, adjust=False).mean()` as a column. */
  function EmaColumn(closes: seq<real>, p: nat): (r: Column)
    ensures |r| == |closes|
  {
    Lift(Ema(closes, p))
  }

  /** The assignments of `for period in ps: df[f'EMA_{period}'] = ...`. */
  function EmaWrites(closes: seq<real>, ps: seq<nat>): (ws: seq<Write>)
    ensures |ws| == |ps| && forall i :: 0 <= i < |ws| ==> |ws[i].1| == |closes|
  {
    seq(|ps|, j requires 0 <= j < |ps| => (ps[j], EmaColumn(closes, ps[j])))
  }

  /** Golden and death crosses are assigned only when both SMA_50 and SMA_200
      are columns, whatever put them there. */
  function Crosses(c: Columns, n: nat): (r: Columns)
    requires MapFits(c.sma, n)
  {
    if 50 in c.sma && 200 in c.sma then
      var fast, slow := c.sma[50], c.sma[200];
      c.(goldenCross := Some(CrossAbove(fast, slow)), deathCross := Some(CrossBelow(fast, slow)))
    else c
  }

  /** `_calculate_moving_averages` */
  function MaPass(c: Columns, closes: seq<real>, sma: seq<nat>, ema: seq<nat>): Columns
    requires ValidPeriods(sma) && MapFits(c.sma, |closes|)
  {
    var s := Assign(c.sma, SmaWrites(closes, sma));
    AssignFits(c.sma, SmaWrites(closes, sma), |closes|);
    Crosses(c.(sma := s, ema := Assign(c.ema, EmaWrites(closes, ema))), |closes|)
  }

  /** Every listed SMA period's column holds its average after the pass, even
      when the period is listed twice (resp. EMA). */
  lemma MaPassAverages(c: Columns, closes: seq<real>, sma: seq<nat>, ema: seq<nat>, j: int)
    requires ValidPeriods(sma) && MapFits(c.sma, |closes|)
    ensures var r := MaPass(c, closes, sma, ema);
      (0 <= j < |sma| ==> sma[j] in r.sma && r.sma[sma[j]] == Sma(closes, sma[j])) &&
      (0 <= j < |ema| ==> ema[j] in r.ema && r.ema[ema[j]] == EmaColumn(closes, ema[j]))
  {
    if 0 <= j < |sma| {
      AssignUniform(c.sma, SmaWrites(closes, sma), j);
    }
    if 0 <= j < |ema| {
      AssignUniform(c.ema, EmaWrites(closes, ema), j);
    }
  }

  /** With 50 and 200 among the SMA periods, the golden and death crosses
      compare those two averages. */
  lemma MaPassCrosses(c: Columns, closes: seq<real>, sma: seq<nat>, ema: seq<nat>, j50: int, j200: int)
    requires ValidPeriods(sma) && MapFits(c.sma, |closes|)
    requires 0 <= j50 < |sma| && sma[j50] == 50 && 0 <= j200 < |sma| && sma[j200] == 200
    ensures var r := MaPass(c, closes, sma, ema);
      r.goldenCross == Some(CrossAbove(Sma(closes, 50), Sma(closes, 200))) &&
      r.deathCross == Some(CrossBelow(Sma(closes, 50), Sma(closes, 200)))
  {
    AssignUniform(c.sma, SmaWrites(closes, sma), j50);
    AssignUniform(c.sma, SmaWrites(closes, sma), j200);
  }

  // ---------------------------------------------------------------- the other passes

  /** `_calculate_rsi` */
  function RsiPass(c: Columns, bars: seq<Bar>, p: nat): Columns
    requires p >= 1
  {
    var rsi := Rsi(Closes(bars), p);
    c.(rsi := Some(rsi), rsiOverbought := Some(AboveFlag(rsi, 70.0)), rsiOversold := Some(BelowFlag(rsi, 30.0)))
  }

  /** `_calculate_macd` */
  function MacdPass(c: Columns, bars: seq<Bar>, fast: nat, slow: nat, signal: nat): Columns
  {
    var closes := Closes(bars);
    var m, sg := Lift(MacdLine(closes, fast, slow)), Lift(MacdSignal(closes, fast, slow, signal));
    c.(macd := Some(m), macdSignal := Some(sg), macdHistogram := Some(Lift(MacdHistogram(closes, fast, slow, signal))),
       macdBullishCross := Some(CrossAbove(m, sg)), macdBearishCross := Some(CrossBelow(m, sg)))
  }

  /** `_calculate_bollinger_bands` */
  function BollingerPass(c: Columns, num: Numerics, bars: seq<Bar>, p: nat, k: real): Columns
    requires p >= 1
  {
    var closes := Closes(bars);
    c.(bbUpper := Some(BbUpper(num, closes, p, k)), bbLower := Some(BbLower(num, closes, p, k)),
       bbMiddle := Some(BbMiddle(closes, p)), bbWidth := Some(BbWidth(num, closes, p, k)),
       bbPosition := Some(BbPosition(num, closes, p, k)),
       bbOverbought := Some(BbOverbought(num, closes, p, k)), bbOversold := Some(BbOversold(num, closes, p, k)))
  }

  /** `_calculate_stochastic` */
  function StochasticPass(c: Columns, bars: seq<Bar>, kp: nat, dp: nat): Columns
    requires kp >= 1 && dp >= 1
  {
    var k := StochK(bars, kp);
    c.(stochK := Some(k), stochD := Some(StochD(bars, kp, dp)),
       stochOverbought := Some(AboveFlag(k, 80.0)), stochOversold := Some(BelowFlag(k, 20.0)))
  }

  /** `_calculate_williams_r` */
  function WilliamsPass(c: Columns, bars: seq<Bar>): Columns
  {
    c.(williamsR := Some(WilliamsR(bars)))
  }

  /** `_calculate_cci` */
  function CciPass(c: Columns, bars: seq<Bar>): Columns
  {
    c.(cci := Some(Cci(bars)))
  }

  /** `_calculate_volume_indicators` */
  function VolumePass(c: Columns, bars: seq<Bar>): Columns
  {
    c.(obv := Some(Lift(Obv(bars))), volumeRoc := Some(VolumeRoc(bars)),
       volumeMa := Some(VolumeMa(bars)), volumeRatio := Some(VolumeRatio(bars)))
  }

  /** `_calculate_atr` */
  function AtrPass(c: Columns, bars: seq<Bar>): Columns
  {
    c.(atr := Some(Atr(bars)))
  }

  /** `_calculate_keltner_channels`: an existing ATR column is used as it is;
      otherwise `_calculate_atr` runs on the same frame first and adds one. */
  function KeltnerPass(c: Columns, bars: seq<Bar>): Columns
    requires Fits(c.atr, |bars|)
  {
    var closes := Closes(bars);
    var c' := if c.atr.Some? then c else AtrPass(c, bars);
    var atr := c'.atr.value;
    c'.(kcUpper := Some(KcUpper(closes, atr)), kcLower := Some(KcLower(closes, atr)), kcMiddle := Some(KcMiddle(closes)))
  }

  /** `_calculate_ichimoku` */
  function IchimokuPass(c: Columns, bars: seq<Bar>): Columns
  {
    c.(tenkan := Some(Tenkan(bars)), kijun := Some(Kijun(bars)), senkouA := Some(SenkouA(bars)),
       senkouB := Some(SenkouB(bars)), chikou := Some(Chikou(bars)))
  }

  /** `_calculate_vwap` */
  function VwapPass(c: Columns, bars: seq<Bar>): Columns
  {
    c.(vwap := Some(Vwap(bars)))
  }

  // ---------------------------------------------------------------- calculate_all

  /** The columns `calculate_all` leaves in the frame: the passes in order. */
  function AllColumns(cfg: IndicatorConfig, num: Numerics, bars: seq<Bar>, c: Columns): Columns
    reads cfg
    requires cfg.Valid() && MapFits(c.sma, |bars|)
  {
    var c1 := MaPass(c, Closes(bars), cfg.smaPeriods, cfg.emaPeriods);
    var c2 := RsiPass(c1, bars, cfg.rsiPeriod);
    var c3 := MacdPass(c2, bars, cfg.macdFast, cfg.macdSlow, cfg.macdSignal);
    var c4 := BollingerPass(c3, num, bars, cfg.bbPeriod, cfg.bbStd);
    var c5 := StochasticPass(c4, bars, cfg.stochasticK, cfg.stochasticD);
    var c6 := VolumePass(CciPass(WilliamsPass(c5, bars), bars), bars);
    var c7 := KeltnerPass(AtrPass(c6, bars), bars);
    VwapPass(IchimokuPass(c7, bars), bars)
  }

  /** After `calculate_all` every configured SMA and EMA column holds its
      average: no later pass assigns a column of that form. */
  lemma CalculateAllAverages(cfg: IndicatorConfig, num: Numerics, bars: seq<Bar>, c: Columns, j: int)
    requires cfg.Valid() && MapFits(c.sma, |bars|)
    ensures var r, closes, sma, ema := AllColumns(cfg, num, bars, c), Closes(bars), cfg.smaPeriods, cfg.emaPeriods;
      (0 <= j < |sma| ==> sma[j] in r.sma && r.sma[sma[j]] == Sma(closes, sma[j])) &&
      (0 <= j < |ema| ==> ema[j] in r.ema && r.ema[ema[j]] == EmaColumn(closes, ema[j]))
  {
    MaPassAverages(c, Closes(bars), cfg.smaPeriods, cfg.emaPeriods, j);
  }

  /** With 50 and 200 among the SMA periods, the result's golden and death
      crosses compare those two averages. */
  lemma CalculateAllCrosses(cfg: IndicatorConfig, num: Numerics, bars: seq<Bar>, c: Columns, j50: int, j200: int)
    requires cfg.Valid() && MapFits(c.sma, |bars|)
    requires 0 <= j50 < |cfg.smaPeriods| && cfg.smaPeriods[j50] == 50
    requires 0 <= j200 < |cfg.smaPeriods| && cfg.smaPeriods[j200] == 200
    ensures var r, closes := AllColumns(cfg, num, bars, c), Closes(bars);
      r.goldenCross == Some(CrossAbove(Sma(closes, 50), Sma(closes, 200))) &&
      r.deathCross == Some(CrossBelow(Sma(closes, 50), Sma(closes, 200)))
  {
    MaPassCrosses(c, Closes(bars), cfg.smaPeriods, cfg.emaPeriods, j50, j200);
  }

  /** The result's momentum, band and volatility columns are those of the
      closes and bars with the configured windows; the Keltner channels are
      built on the bars' own ATR, even when the input frame held an ATR column. */
  lemma CalculateAllColumns(cfg: IndicatorConfig, num: Numerics, bars: seq<Bar>, c: Columns)
    requires cfg.Valid() && MapFits(c.sma, |bars|)
    ensures var r, closes := AllColumns(cfg, num, bars, c), Closes(bars);
      r.rsi == Some(Rsi(closes, cfg.rsiPeriod)) &&
      r.macd == Some(Lift(MacdLine(closes, cfg.macdFast, cfg.macdSlow))) &&
      r.macdHistogram == Some(Lift(MacdHistogram(closes, cfg.macdFast, cfg.macdSlow, cfg.macdSignal))) &&
      r.bbUpper == Some(BbUpper(num, closes, cfg.bbPeriod, cfg.bbStd)) &&
      r.bbLower == Some(BbLower(num, closes, cfg.bbPeriod, cfg.bbStd)) &&
      r.stochK == Some(StochK(bars, cfg.stochasticK)) &&
      r.obv == Some(Lift(Obv(bars))) && r.atr == Some(Atr(bars)) &&
      r.kcUpper == Some(KcUpper(closes, Atr(bars))) && r.kcLower == Some(KcLower(closes, Atr(bars))) &&
      r.vwap == Some(Vwap(bars)) && r.other == c.other
  {
  }

  /** Every pass of `calculate_all` writes columns as long as the frame and
      touches no column outside its own, so an aligned frame stays aligned
      and the caller's other columns are kept as they were. */
  lemma CalculateAllAligned(cfg: IndicatorConfig, num: Numerics, bars: seq<Bar>, c: Columns)
    requires cfg.Valid() && Aligned(c, |bars|)
    ensures var r := AllColumns(cfg, num, bars, c); Aligned(r, |bars|) && r.other == c.other
  {
    var closes := Closes(bars);
    AssignFits(c.sma, SmaWrites(closes, cfg.smaPeriods), |bars|);
    AssignFits(c.ema, EmaWrites(closes, cfg.emaPeriods), |bars|);
  }
}
