/** The `TechnicalIndicators` engine of src/core/indicators.py: `calculate_all`
    copies the frame and runs its passes over the copy, each assigning its
    columns in place. */
module TechnicalIndicators {
  import opened Series
  import opened Oracles
  import opened Indicators
  import opened IndicatorFrame
  import opened SignalNames

  class Engine {
    const config: IndicatorConfig
    /** The numerical library the Bollinger bands' standard deviation comes from. */
    const num: Numerics

    /** `TechnicalIndicators(config)`: a missing configuration is replaced by
        the default one (a dataclass instance is always truthy). */
    constructor (config: Option<IndicatorConfig>, num: Numerics)
      ensures config.Some? ==> this.config == config.value
      ensures config.None? ==>
        fresh(this.config) && this.config.IsDefault() && this.config.Valid()
      ensures this.num == num
    {
      if config.Some? {
        this.config := config.value;
      } else {
        this.config := new IndicatorConfig.Default();
      }
      this.num := num;
    }

    /** `calculate_all`: the input frame is left as it is; the new frame holds
        the input's columns with every pass's columns assigned over them. */
    method CalculateAll(data: Frame) returns (df: Frame)
      requires data.Valid() && config.Valid()
      ensures fresh(df) && df.bars == data.bars
      ensures df.cols == AllColumns(config, num, data.bars, data.cols)
      ensures df.Valid()
    {
      df := data.Copy();
      CalculateAllAligned(config, num, data.bars, data.cols);
      CalculateMovingAverages(df);
      CalculateRsi(df);
      CalculateMacd(df);
      CalculateBollingerBands(df);
      CalculateStochastic(df);
      CalculateWilliamsR(df);
      CalculateCci(df);
      CalculateVolumeIndicators(df);
      CalculateAtr(df);
      CalculateKeltnerChannels(df);
      CalculateIchimoku(df);
      CalculateVwap(df);
    }

    /** `_calculate_moving_averages`: one assignment per listed period, in
        order, then the crosses when SMA_50 and SMA_200 are both columns. */
    method CalculateMovingAverages(df: Frame)
      requires config.Valid() && MapFits(df.cols.sma, |df.bars|)
      modifies df
      ensures df.cols == MaPass(old(df.cols), Closes(df.bars), config.smaPeriods, config.emaPeriods)
    {
      var closes, sma, ema := Closes(df.bars), config.smaPeriods, config.emaPeriods;
      ghost var start := df.cols;
      for i := 0 to |sma|
        invariant df.cols == start.(sma := Assign(start.sma, SmaWrites(closes, sma[..i])))
      {
        assert SmaWrites(closes, sma[..i + 1]) == SmaWrites(closes, sma[..i]) + [(sma[i], Sma(closes, sma[i]))];
        AssignSnoc(start.sma, SmaWrites(closes, sma[..i]), sma[i], Sma(closes, sma[i]));
        df.cols := df.cols.(sma := df.cols.sma[sma[i] := Sma(closes, sma[i])]);
      }
      assert sma[..|sma|] == sma;
      for i := 0 to |ema|
        invariant df.cols == start.(sma := Assign(start.sma, SmaWrites(closes, sma)),
                                    ema := Assign(start.ema, EmaWrites(closes, ema[..i])))
      {
        assert EmaWrites(closes, ema[..i + 1]) == EmaWrites(closes, ema[..i]) + [(ema[i], EmaColumn(closes, ema[i]))];
        AssignSnoc(start.ema, EmaWrites(closes, ema[..i]), ema[i], EmaColumn(closes, ema[i]));
        df.cols := df.cols.(ema := df.cols.ema[ema[i] := Lift(Ema(closes, ema[i]))]);
      }
      assert ema[..|ema|] == ema;
      AssignFits(start.sma, SmaWrites(closes, sma), |closes|);
      if 50 in df.cols.sma && 200 in df.cols.sma {
        var fast, slow := df.cols.sma[50], df.cols.sma[200];
        df.cols := df.cols.(goldenCross := Some(CrossAbove(fast, slow)), deathCross := Some(CrossBelow(fast, slow)));
      }
    }

    /** `_calculate_rsi` */
    method CalculateRsi(df: Frame)
      requires config.Valid()
      modifies df
      ensures df.cols == RsiPass(old(df.cols), df.bars, config.rsiPeriod)
    {
      var rsi := Rsi(Closes(df.bars), config.rsiPeriod);
      df.cols := df.cols.(rsi := Some(rsi));
      df.cols := df.cols.(rsiOverbought := Some(AboveFlag(rsi, 70.0)));
      df.cols := df.cols.(rsiOversold := Some(BelowFlag(rsi, 30.0)));
    }

    /** `_calculate_macd` */
    method CalculateMacd(df: Frame)
      modifies df
      ensures df.cols == MacdPass(old(df.cols), df.bars, config.macdFast, config.macdSlow, config.macdSignal)
    {
      var closes := Closes(df.bars);
      var macd := Lift(MacdLine(closes, config.macdFast, config.macdSlow));
      var signal := Lift(MacdSignal(closes, config.macdFast, config.macdSlow, config.macdSignal));
      df.cols := df.cols.(macd := Some(macd), macdSignal := Some(signal));
      df.cols := df.cols.(macdHistogram := Some(Lift(MacdHistogram(closes, config.macdFast, config.macdSlow, config.macdSignal))));
      df.cols := df.cols.(macdBullishCross := Some(CrossAbove(macd, signal)), macdBearishCross := Some(CrossBelow(macd, signal)));
    }

    /** `_calculate_bollinger_bands` */
    method CalculateBollingerBands(df: Frame)
      requires config.Valid()
      modifies df
      ensures df.cols == BollingerPass(old(df.cols), num, df.bars, config.bbPeriod, config.bbStd)
    {
      var closes, p, k := Closes(df.bars), config.bbPeriod, config.bbStd;
      df.cols := df.cols.(bbUpper := Some(BbUpper(num, closes, p, k)), bbLower := Some(BbLower(num, closes, p, k)),
                          bbMiddle := Some(BbMiddle(closes, p)));
      df.cols := df.cols.(bbWidth := Some(BbWidth(num, closes, p, k)), bbPosition := Some(BbPosition(num, closes, p, k)));
      df.cols := df.cols.(bbOverbought := Some(BbOverbought(num, closes, p, k)), bbOversold := Some(BbOversold(num, closes, p, k)));
    }

    /** `_calculate_stochastic` */
    method CalculateStochastic(df: Frame)
      requires config.Valid()
      modifies df
      ensures df.cols == StochasticPass(old(df.cols), df.bars, config.stochasticK, config.stochasticD)
    {
      var k := StochK(df.bars, config.stochasticK);
      df.cols := df.cols.(stochK := Some(k), stochD := Some(StochD(df.bars, config.stochasticK, config.stochasticD)));
      df.cols := df.cols.(stochOverbought := Some(AboveFlag(k, 80.0)), stochOversold := Some(BelowFlag(k, 20.0)));
    }

    /** `_calculate_williams_r` */
    method CalculateWilliamsR(df: Frame)
      modifies df
      ensures df.cols == WilliamsPass(old(df.cols), df.bars)
    {
      df.cols := df.cols.(williamsR := Some(WilliamsR(df.bars)));
    }

    /** `_calculate_cci` */
    method CalculateCci(df: Frame)
      modifies df
      ensures df.cols == CciPass(old(df.cols), df.bars)
    {
      df.cols := df.cols.(cci := Some(Cci(df.bars)));
    }

    /** `_calculate_volume_indicators` */
    method CalculateVolumeIndicators(df: Frame)
      modifies df
      ensures df.cols == VolumePass(old(df.cols), df.bars)
    {
      df.cols := df.cols.(obv := Some(Lift(Obv(df.bars))), volumeRoc := Some(VolumeRoc(df.bars)));
      df.cols := df.cols.(volumeMa := Some(VolumeMa(df.bars)), volumeRatio := Some(VolumeRatio(df.bars)));
    }

    /** `_calculate_atr` */
    method CalculateAtr(df: Frame)
      modifies df
      ensures df.cols == AtrPass(old(df.cols), df.bars)
    {
      df.cols := df.cols.(atr := Some(Atr(df.bars)));
    }

    /** `_calculate_keltner_channels`: without an ATR column, `_calculate_atr`
        runs first on the same frame and leaves its column there. */
    method CalculateKeltnerChannels(df: Frame)
      requires Fits(df.cols.atr, |df.bars|)
      modifies df
      ensures df.cols == KeltnerPass(old(df.cols), df.bars)
    {
      var closes := Closes(df.bars);
      if df.cols.atr.None? {
        CalculateAtr(df);
      }
      var atr := df.cols.atr.value;
      df.cols := df.cols.(kcUpper := Some(KcUpper(closes, atr)), kcLower := Some(KcLower(closes, atr)));
      df.cols := df.cols.(kcMiddle := Some(KcMiddle(closes)));
    }

    /** `_calculate_ichimoku` */
    method CalculateIchimoku(df: Frame)
      modifies df
      ensures df.cols == IchimokuPass(old(df.cols), df.bars)
    {
      df.cols := df.cols.(tenkan := Some(Tenkan(df.bars)), kijun := Some(Kijun(df.bars)));
      df.cols := df.cols.(senkouA := Some(SenkouA(df.bars)), senkouB := Some(SenkouB(df.bars)));
      df.cols := df.cols.(chikou := Some(Chikou(df.bars)));
    }

    /** `_calculate_vwap` */
    method CalculateVwap(df: Frame)
      modifies df
      ensures df.cols == VwapPass(old(df.cols), df.bars)
    {
      df.cols := df.cols.(vwap := Some(Vwap(df.bars)));
    }

    /** `get_signal_summary`: every signal column's last value through
        `int()`, 0 for an empty frame; a NaN last value raises, and which such
        column is met first depends on the column order, which the model does
        not keep. */
    method GetSignalSummary(df: Frame) returns (r: Summary)
      ensures r.Summary? <==> forall n :: n in SignalColumns(df.cols) ==> Convert(Get(df.cols, n).value).Some?
      ensures r.Summary? ==>
        r.values.Keys == SignalColumns(df.cols) &&
        forall n :: n in r.values ==> Convert(Get(df.cols, n).value) == Some(r.values[n])
      ensures r.NotConvertible? ==>
        r.column in SignalColumns(df.cols) && Convert(Get(df.cols, r.column).value).None?
    {
      var cols := df.cols;
      var table := map n | n in SignalColumns(cols) :: Get(cols, n).value;
      assert table.Keys == SignalColumns(cols);
      assert forall n :: n in table ==> table[n] == Get(cols, n).value;
      r := Summarize(table);
    }
  }

  /** The loop of `get_signal_summary` over the signal columns by name. */
  method Summarize(table: map<ColumnName, Column>) returns (r: Summary)
    ensures r.Summary? <==> forall n :: n in table ==> Convert(table[n]).Some?
    ensures r.Summary? ==>
      r.values.Keys == table.Keys && forall n :: n in r.values ==> Convert(table[n]) == Some(r.values[n])
    ensures r.NotConvertible? ==> r.column in table && Convert(table[r.column]).None?
  {
    var todo, summary := table.Keys, map[];
    while todo != {}
      invariant todo <= table.Keys
      invariant summary.Keys == table.Keys - todo
      invariant forall n :: n in summary ==> Convert(table[n]) == Some(summary[n])
      decreases |todo|
    {
      var n :| n in todo;
      var col := table[n];
      if |col| == 0 {
        summary := summary[n := 0];
      } else if col[|col| - 1].None? {
        return NotConvertible(n);
      } else {
        summary := summary[n := TruncToInt(col[|col| - 1].value)];
      }
      todo := todo - {n};
    }
    r := Summary(summary);
  }
}
