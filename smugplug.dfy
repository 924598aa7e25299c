/**
 * The baseline "Smugplug" signal processor: three EMAs for trend, the ATR for
 * a price threshold against the previous close, and MACD for momentum. A row
 * signals 1 (buy) or -1 (sell) when all seven conditions of its side hold, and
 * 0 otherwise; nothing is decimated, so a signal may repeat on consecutive rows.
 */
module Smugplug {
  import opened Wrappers
  import opened Series
  import opened Plugin

  const ParameterNames: set<string> :=
    {"atr_multiplier", "atr_period", "long_ema_period", "macd_fast",
     "macd_signal", "macd_slow", "medium_ema_period", "short_ema_period"}

  /** The processor's declared tunable parameters, each within its bounds. */
  function GetParameters(): (r: map<string, Param>)
    ensures r.Keys == ParameterNames
    ensures forall k :: k in r ==> InRange(r[k])
  {
    map[
      "atr_multiplier" := Param(Float(1.5), Int(1), Int(5), None),
      "atr_period" := Param(Int(11), Int(5), Int(30), None),
      "long_ema_period" := Param(Int(31), Int(30), Int(100), None),
      "macd_fast" := Param(Int(21), Int(8), Int(26), None),
      "macd_signal" := Param(Int(9), Int(5), Int(20), None),
      "macd_slow" := Param(Int(42), Int(20), Int(60), None),
      "medium_ema_period" := Param(Int(29), Int(15), Int(50), None),
      "short_ema_period" := Param(Int(8), Int(5), Int(20), None)
    ]
  }

  /** The attributes `ProcessCandles` reads are all set. */
  predicate Configured(attrs: map<string, Number>) {
    ParameterNames <= attrs.Keys
  }

  /** Setting the processor's own parameters on it, as the controller does, configures it. */
  lemma InjectedParametersConfigure(attrs: map<string, Number>)
    ensures Configured(Inject(attrs, GetParameters()))
    ensures forall k :: k in ParameterNames ==> Inject(attrs, GetParameters())[k] == GetParameters()[k].current
  {
  }

  /** The input columns the processor insists on before it writes anything. */
  const RequiredColumns: seq<string> := ["close", "high", "low"]

  /** The columns `ProcessCandles` adds or overwrites. */
  const WrittenColumns: set<string> :=
    {"short_ema", "medium_ema", "long_ema", "atr", "macd", "macd_signal", "macd_hist", "signal", "prev_signal"}

  /** The columns the indicator step adds: every indicator column except the input `close`. */
  const IndicatorOutputs: set<string> :=
    {"short_ema", "medium_ema", "long_ema", "atr", "macd", "macd_signal", "macd_hist"}

  /** The vectorised buy condition, conjunct by conjunct as the processor combines it. */
  function BuyCondition(f: Indicators, m: real): (r: seq<bool>)
    requires f.WellFormed()
    ensures |r| == f.Rows()
  {
    And(And(And(And(And(And(
      GtCol(f.shortEma, f.mediumEma),
      GtCol(f.mediumEma, f.longEma)),
      GtCol(f.close, f.shortEma)),
      GtCol(f.close, MinusCol(Shift(f.close, 1), TimesCol(f.atr, m)))),
      GtCol(f.macd, f.macdSignal)),
      GtScalar(f.macdHist, 0.0)),
      GtCol(f.macdHist, Shift(f.macdHist, 1)))
  }

  /** The vectorised sell condition, the mirror image of the buy condition. */
  function SellCondition(f: Indicators, m: real): (r: seq<bool>)
    requires f.WellFormed()
    ensures |r| == f.Rows()
  {
    And(And(And(And(And(And(
      LtCol(f.shortEma, f.mediumEma),
      LtCol(f.mediumEma, f.longEma)),
      LtCol(f.close, f.shortEma)),
      LtCol(f.close, PlusCol(Shift(f.close, 1), TimesCol(f.atr, m)))),
      LtCol(f.macd, f.macdSignal)),
      LtScalar(f.macdHist, 0.0)),
      LtCol(f.macdHist, Shift(f.macdHist, 1)))
  }

  /**
   * The buy rule at one row, read directly: a rising EMA stack under the close,
   * a close above the previous close less m ATRs, MACD above its signal line,
   * and a positive histogram that grew since the previous row.
   */
  predicate BuyRule(f: Indicators, m: real, i: nat)
    requires f.WellFormed() && i < f.Rows()
  {
    && Gt(f.shortEma[i], f.mediumEma[i]) && Gt(f.mediumEma[i], f.longEma[i])
    && Gt(f.close[i], f.shortEma[i])
    && i >= 1
    && Gt(f.close[i], Minus(f.close[i - 1], Times(f.atr[i], m)))
    && Gt(f.macd[i], f.macdSignal[i]) && Gt(f.macdHist[i], Some(0.0))
    && Gt(f.macdHist[i], f.macdHist[i - 1])
  }

  /** The sell rule at one row: the mirror image of `BuyRule`. */
  predicate SellRule(f: Indicators, m: real, i: nat)
    requires f.WellFormed() && i < f.Rows()
  {
    && Lt(f.shortEma[i], f.mediumEma[i]) && Lt(f.mediumEma[i], f.longEma[i])
    && Lt(f.close[i], f.shortEma[i])
    && i >= 1
    && Lt(f.close[i], Plus(f.close[i - 1], Times(f.atr[i], m)))
    && Lt(f.macd[i], f.macdSignal[i]) && Lt(f.macdHist[i], Some(0.0))
    && Lt(f.macdHist[i], f.macdHist[i - 1])
  }

  /** The combined conditions hold at a row exactly when the row's rules do. */
  lemma ConditionsAt(f: Indicators, m: real, i: nat)
    requires f.WellFormed() && i < f.Rows()
    ensures BuyCondition(f, m)[i] <==> BuyRule(f, m, i)
    ensures SellCondition(f, m)[i] <==> SellRule(f, m, i)
  {
    BuyAt(f, m, i);
    SellAt(f, m, i);
  }

  /** The buy half of `ConditionsAt`: the two shifted columns read the previous row, missing at row 0. */
  lemma BuyAt(f: Indicators, m: real, i: nat)
    requires f.WellFormed() && i < f.Rows()
    ensures BuyCondition(f, m)[i] <==> BuyRule(f, m, i)
  {
    var floor := MinusCol(Shift(f.close, 1), TimesCol(f.atr, m));
    var previous := Shift(f.macdHist, 1);
    if i == 0 {
      assert floor[i] == None;
    } else {
      assert floor[i] == Minus(f.close[i - 1], Times(f.atr[i], m));
      assert previous[i] == f.macdHist[i - 1];
    }
  }

  /** The sell half of `ConditionsAt`. */
  lemma SellAt(f: Indicators, m: real, i: nat)
    requires f.WellFormed() && i < f.Rows()
    ensures SellCondition(f, m)[i] <==> SellRule(f, m, i)
  {
    var ceiling := PlusCol(Shift(f.close, 1), TimesCol(f.atr, m));
    var previous := Shift(f.macdHist, 1);
    if i == 0 {
      assert ceiling[i] == None;
    } else {
      assert ceiling[i] == Plus(f.close[i - 1], Times(f.atr[i], m));
      assert previous[i] == f.macdHist[i - 1];
    }
  }

  /** Buy and sell never hold on the same row: they need opposite orders of the short and medium EMA. */
  lemma BuySellExclusive(f: Indicators, m: real, i: nat)
    requires f.WellFormed() && i < f.Rows()
    ensures !(BuyRule(f, m, i) && SellRule(f, m, i))
  {
  }

  /**
   * The signal column after the processor's writes: zero everywhere, then 1
   * under the buy mask, then -1 under the sell mask.
   */
  function SignalColumn(f: Indicators, m: real): (r: Column)
    requires f.WellFormed()
    ensures |r| == f.Rows()
  {
    Assign(Assign(Constant(f.Rows(), 0.0), BuyCondition(f, m), 1.0), SellCondition(f, m), -1.0)
  }

  /**
   * Because the two rules exclude each other, the later sell write never
   * overwrites a buy: a row carries 1 exactly when its buy rule holds, -1
   * exactly when its sell rule holds, and 0 when neither does.
   */
  lemma SignalMeaning(f: Indicators, m: real, i: nat)
    requires f.WellFormed() && i < f.Rows()
    ensures SignalColumn(f, m)[i] == Some(1.0) <==> BuyRule(f, m, i)
    ensures SignalColumn(f, m)[i] == Some(-1.0) <==> SellRule(f, m, i)
    ensures SignalColumn(f, m)[i] == Some(0.0) <==> !BuyRule(f, m, i) && !SellRule(f, m, i)
  {
    ConditionsAt(f, m, i);
    BuySellExclusive(f, m, i);
  }

  /** Every signal is -1, 0 or 1. */
  lemma SignalValues(f: Indicators, m: real, i: nat)
    requires f.WellFormed() && i < f.Rows()
    ensures SignalColumn(f, m)[i] in {Some(-1.0), Some(0.0), Some(1.0)}
  {
    var r := SignalColumn(f, m);
    SignalMeaning(f, m, i);
    if !BuyRule(f, m, i) && !SellRule(f, m, i) {
      assert r[i] == Some(0.0);
    } else if BuyRule(f, m, i) {
      assert r[i] == Some(1.0);
    } else {
      assert r[i] == Some(-1.0);
    }
  }

  /** Row 0 never signals: both rules compare against the previous row, missing there. */
  lemma FirstRowFlat(f: Indicators, m: real)
    requires f.WellFormed() && f.Rows() > 0
    ensures SignalColumn(f, m)[0] == Some(0.0)
  {
  }

  /** A row's signal depends only on that row and the one before it. */
  lemma SignalIsLocal(f: Indicators, g: Indicators, m: real, i: nat)
    requires f.WellFormed() && g.WellFormed() && i < f.Rows() && i < g.Rows()
    requires AgreeAt(f, g, i) && (i >= 1 ==> AgreeAt(f, g, i - 1))
    ensures SignalColumn(f, m)[i] == SignalColumn(g, m)[i]
  {
    ConditionsAt(f, m, i);
    ConditionsAt(g, m, i);
    assert BuyRule(f, m, i) == BuyRule(g, m, i);
    assert SellRule(f, m, i) == SellRule(g, m, i);
  }

  /** Two indicator tables hold the same values in row j. */
  predicate AgreeAt(f: Indicators, g: Indicators, j: int)
    requires f.WellFormed() && g.WellFormed()
  {
    0 <= j < f.Rows() && j < g.Rows() &&
    f.close[j] == g.close[j] && f.shortEma[j] == g.shortEma[j] && f.mediumEma[j] == g.mediumEma[j] &&
    f.longEma[j] == g.longEma[j] && f.atr[j] == g.atr[j] && f.macd[j] == g.macd[j] &&
    f.macdSignal[j] == g.macdSignal[j] && f.macdHist[j] == g.macdHist[j]
  }

  /** Without decimation a buy signal repeats on consecutive rows while the rule keeps holding. */
  lemma SignalsRepeat()
    ensures var f := Indicators(
              [Some(10.0), Some(11.0), Some(12.0)], [Some(9.0), Some(10.0), Some(11.0)],
              [Some(8.0), Some(9.0), Some(10.0)], [Some(7.0), Some(8.0), Some(9.0)],
              [Some(1.0), Some(1.0), Some(1.0)], [Some(2.0), Some(2.0), Some(2.0)],
              [Some(1.0), Some(1.0), Some(1.0)], [Some(1.0), Some(2.0), Some(3.0)]);
            f.WellFormed() && SignalColumn(f, 1.5) == [Some(0.0), Some(1.0), Some(1.0)]
  {
    var f := Indicators(
      [Some(10.0), Some(11.0), Some(12.0)], [Some(9.0), Some(10.0), Some(11.0)],
      [Some(8.0), Some(9.0), Some(10.0)], [Some(7.0), Some(8.0), Some(9.0)],
      [Some(1.0), Some(1.0), Some(1.0)], [Some(2.0), Some(2.0), Some(2.0)],
      [Some(1.0), Some(1.0), Some(1.0)], [Some(1.0), Some(2.0), Some(3.0)]);
    var r := SignalColumn(f, 1.5);
    SignalMeaning(f, 1.5, 0);
    SignalMeaning(f, 1.5, 1);
    SignalMeaning(f, 1.5, 2);
    assert !BuyRule(f, 1.5, 0) && !SellRule(f, 1.5, 0);
    assert BuyRule(f, 1.5, 1) && BuyRule(f, 1.5, 2);
    assert r[0] == Some(0.0) && r[1] == Some(1.0) && r[2] == Some(1.0);
  }

  /**
   * `process_candles`: checks the input columns, adds the EMA and ATR columns,
   * looks up the three MACD columns in the library's result, zeroes `signal`
   * and derives `prev_signal` from it, then writes 1 on buy rows and -1 on
   * sell rows. A table missing close, high or low is left untouched; a MACD
   * result that is missing or names its columns differently raises after the
   * EMA and ATR columns are written.
   */
  method ProcessCandles(processor: Processor, candles: Candles, ta: Library) returns (r: Outcome<TableError>)
    requires candles.Valid() && Configured(processor.attrs)
    modifies candles
    ensures candles.Valid()
    ensures r.Fail? <==>
      || !("close" in old(candles.columns) && "high" in old(candles.columns) && "low" in old(candles.columns))
      || MacdFor(old(candles.columns)["close"], processor.attrs, ta).Failure?
    ensures !("close" in old(candles.columns) && "high" in old(candles.columns) && "low" in old(candles.columns)) ==>
      r == Fail(MissingColumns(RequiredColumns)) && candles.columns == old(candles.columns)
    ensures var before, a := old(candles.columns), processor.attrs;
      "close" in before && "high" in before && "low" in before && MacdFor(before["close"], a, ta).Failure? ==>
      && r == Fail(MacdFor(before["close"], a, ta).error)
      && candles.columns == TrendWritten(before, |before["close"]|, a, ta)
    ensures r.Pass? ==>
      var before, after, a := old(candles.columns), candles.columns, processor.attrs;
      var f := IndicatorsFor(before, |before["close"]|, a, ta);
      && Overwrites(before, after, WrittenColumns)
      && IndicatorsOf(after) == f
      && after["prev_signal"] == Constant(candles.rows, 0.0)
      && after["signal"] == SignalColumn(f, a["atr_multiplier"].Real())
  {
    if !("close" in candles.columns && "high" in candles.columns && "low" in candles.columns) {
      return Fail(MissingColumns(RequiredColumns));
    }
    var a := processor.attrs;
    var before := candles.columns;
    WriteTrend(candles, a, ta);
    var macd := MacdFor(before["close"], a, ta);
    if macd.Failure? {
      return Fail(macd.error);
    }
    WriteMomentumAndSignal(candles, before, a, ta);
    r := Pass;
  }

  /**
   * The rest of `process_candles` once the trend columns are written and the
   * MACD lookup has found its columns: the MACD columns, then the signal.
   */
  method WriteMomentumAndSignal(candles: Candles, before: map<string, Column>, a: map<string, Number>, ta: Library)
    requires candles.Valid() && "close" in before && "high" in before && "low" in before && Configured(a)
    requires |before["close"]| == candles.rows && MacdFor(before["close"], a, ta).Success?
    requires candles.columns == TrendWritten(before, candles.rows, a, ta)
    modifies candles
    ensures candles.Valid()
    ensures var f := IndicatorsFor(before, candles.rows, a, ta);
      && Overwrites(before, candles.columns, WrittenColumns)
      && IndicatorsOf(candles.columns) == f
      && candles.columns["prev_signal"] == Constant(candles.rows, 0.0)
      && candles.columns["signal"] == SignalColumn(f, a["atr_multiplier"].Real())
  {
    WriteMacd(candles, MacdFor(before["close"], a, ta).value);
    var f := IndicatorsFor(before, candles.rows, a, ta);
    IndicatorsAfterWrites(before, candles.rows, a, ta);
    ghost var indicators := candles.columns;
    WriteSignal(candles, f, a["atr_multiplier"].Real());
    OverwritesTrans(before, indicators, candles.columns, IndicatorOutputs, {"signal", "prev_signal"});
    assert IndicatorOutputs + {"signal", "prev_signal"} == WrittenColumns;
  }

  /** The three MACD columns as the processor looks them up, under its own periods. */
  function MacdFor(close: Column, a: map<string, Number>, ta: Library): Result<Macd, TableError>
    requires Configured(a)
  {
    var fast, slow, signal := a["macd_fast"], a["macd_slow"], a["macd_signal"];
    LookupMacd(ta.macd(close, fast, slow, signal), fast, slow, signal)
  }

  /** A table after the processor has written its EMA and ATR columns over n rows. */
  function TrendWritten(columns: map<string, Column>, n: nat, a: map<string, Number>, ta: Library): (r: map<string, Column>)
    requires "close" in columns && "high" in columns && "low" in columns && Configured(a)
    ensures Overwrites(columns, r, {"short_ema", "medium_ema", "long_ema", "atr"})
    ensures r["close"] == columns["close"]
  {
    var close := columns["close"];
    columns["short_ema" := Align(ta.ema(close, a["short_ema_period"]), n)]
      ["medium_ema" := Align(ta.ema(close, a["medium_ema_period"]), n)]
      ["long_ema" := Align(ta.ema(close, a["long_ema_period"]), n)]
      ["atr" := Align(ta.atr(columns["high"], columns["low"], close, a["atr_period"]), n)]
  }

  /**
   * The indicator columns the processor derives from a table's `close`, `high`
   * and `low` columns under its parameters, aligned on the table's n rows.
   */
  function IndicatorsFor(columns: map<string, Column>, n: nat, a: map<string, Number>, ta: Library): (f: Indicators)
    requires "close" in columns && "high" in columns && "low" in columns && Configured(a)
    requires |columns["close"]| == n && MacdFor(columns["close"], a, ta).Success?
    ensures f.WellFormed() && f.Rows() == n
    ensures f.close == columns["close"]
  {
    var close := columns["close"];
    var macd := MacdFor(close, a, ta).value;
    Indicators(close,
      Align(ta.ema(close, a["short_ema_period"]), n),
      Align(ta.ema(close, a["medium_ema_period"]), n),
      Align(ta.ema(close, a["long_ema_period"]), n),
      Align(ta.atr(columns["high"], columns["low"], close, a["atr_period"]), n),
      Align(macd.line, n), Align(macd.signal, n), Align(macd.hist, n))
  }

  /** The trend part of `process_candles`: the three EMA columns and the ATR column, in that order. */
  method WriteTrend(candles: Candles, a: map<string, Number>, ta: Library)
    requires candles.Valid() && "close" in candles.columns && "high" in candles.columns && "low" in candles.columns
    requires Configured(a)
    modifies candles
    ensures candles.Valid()
    ensures candles.columns == TrendWritten(old(candles.columns), candles.rows, a, ta)
  {
    var n, close, high, low := candles.rows, candles.columns["close"], candles.columns["high"], candles.columns["low"];
    candles.SetColumn("short_ema", Align(ta.ema(close, a["short_ema_period"]), n));
    candles.SetColumn("medium_ema", Align(ta.ema(close, a["medium_ema_period"]), n));
    candles.SetColumn("long_ema", Align(ta.ema(close, a["long_ema_period"]), n));
    candles.SetColumn("atr", Align(ta.atr(high, low, close, a["atr_period"]), n));
  }

  /**
   * Writing the trend columns and then the looked-up MACD columns over a table
   * overwrites exactly the seven indicator outputs and leaves the table's
   * indicators in it.
   */
  lemma IndicatorsAfterWrites(before: map<string, Column>, n: nat, a: map<string, Number>, ta: Library)
    requires "close" in before && "high" in before && "low" in before && Configured(a)
    requires |before["close"]| == n && MacdFor(before["close"], a, ta).Success?
    ensures var macd := MacdFor(before["close"], a, ta).value;
      var after := TrendWritten(before, n, a, ta)
        ["macd" := Align(macd.line, n)]["macd_signal" := Align(macd.signal, n)]["macd_hist" := Align(macd.hist, n)];
      && Overwrites(before, after, IndicatorOutputs)
      && IndicatorColumns <= after.Keys
      && IndicatorsOf(after) == IndicatorsFor(before, n, a, ta)
  {
  }

  /**
   * The signal-writing part of `process_candles`: `signal` is zeroed, `prev_signal`
   * is derived from the zeroed column, then the buy and sell masks are written.
   */
  method WriteSignal(candles: Candles, ghost f: Indicators, m: real)
    requires candles.Valid() && IndicatorColumns <= candles.columns.Keys && IndicatorsOf(candles.columns) == f
    modifies candles
    ensures candles.Valid()
    ensures Overwrites(old(candles.columns), candles.columns, {"signal", "prev_signal"})
    ensures IndicatorsOf(candles.columns) == f
    ensures candles.columns["prev_signal"] == Constant(candles.rows, 0.0)
    ensures candles.columns["signal"] == SignalColumn(f, m)
  {
    var n := candles.rows;
    candles.columns := candles.columns["signal" := Constant(n, 0.0)];
    candles.columns := candles.columns["prev_signal" := FillNa(Shift(candles.columns["signal"], 1), 0.0)];
    assert IndicatorsOf(candles.columns) == f;
    var buy := BuyCondition(IndicatorsOf(candles.columns), m);
    candles.columns := candles.columns["signal" := Assign(candles.columns["signal"], buy, 1.0)];
    assert IndicatorsOf(candles.columns) == f;
    var sell := SellCondition(IndicatorsOf(candles.columns), m);
    candles.columns := candles.columns["signal" := Assign(candles.columns["signal"], sell, -1.0)];
    assert IndicatorsOf(candles.columns) == f;
  }
}
