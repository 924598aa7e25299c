/**
 * The "Smugplug + Emerald" signal processor. It differs from the baseline
 * Smugplug in three ways: its EMA and MACD periods are given as offsets that
 * are added up, a volatility filter replaces the ATR price threshold (the ATR
 * must exceed a fraction of its own rolling maximum some rows back), and each
 * side's condition is decimated so that only the first row of a run of
 * qualifying rows signals.
 */
module SmugplugEmerald {
  import opened Wrappers
  import opened Series
  import opened Plugin

  const ParameterNames: set<string> :=
    {"atr_threshold_lookback", "atr_threshold_compare_lookback", "atr_threshold_multiplier",
     "atr_period", "macd_fast", "macd_signal", "macd_slow", "macd_hist_lookback",
     "long_ema_period", "medium_ema_period", "short_ema_period"}

  /**
   * The processor's declared tunable parameters, each within its bounds and
   * with a lower bound of at least 0.5 (1 for every integer parameter).
   */
  function GetParameters(): (r: map<string, Param>)
    ensures r.Keys == ParameterNames
    ensures forall k :: k in r ==> InRange(r[k]) && r[k].min.Real() >= 0.5
  {
    map[
      "atr_threshold_lookback" := Param(Int(50), Int(1), Int(50), None),
      "atr_threshold_compare_lookback" := Param(Int(10), Int(1), Int(10), None),
      "atr_threshold_multiplier" := Param(Float(0.95), Float(0.5), Float(1.0), Some(Float(0.01))),
      "atr_period" := Param(Int(10), Int(1), Int(10), None),
      "macd_fast" := Param(Int(1), Int(1), Int(50), None),
      "macd_signal" := Param(Int(41), Int(5), Int(50), None),
      "macd_slow" := Param(Int(5), Int(1), Int(50), None),
      "macd_hist_lookback" := Param(Int(2), Int(1), Int(10), None),
      "long_ema_period" := Param(Int(43), Int(1), Int(50), None),
      "medium_ema_period" := Param(Int(18), Int(1), Int(50), None),
      "short_ema_period" := Param(Int(31), Int(5), Int(50), None)
    ]
  }

  /**
   * The attributes `ProcessCandles` reads are all set, and the ones used as a
   * rolling window and as shift distances are integers the table library accepts.
   */
  predicate Configured(attrs: map<string, Number>) {
    && ParameterNames <= attrs.Keys
    && attrs["atr_threshold_lookback"].Int? && attrs["atr_threshold_lookback"].i >= 1
    && attrs["atr_threshold_compare_lookback"].Int? && attrs["atr_threshold_compare_lookback"].i >= 0
    && attrs["macd_hist_lookback"].Int? && attrs["macd_hist_lookback"].i >= 0
  }

  /** Setting the processor's own parameters on it, as the controller does, configures it. */
  lemma InjectedParametersConfigure(attrs: map<string, Number>)
    ensures Configured(Inject(attrs, GetParameters()))
  {
    var ps := GetParameters();
    assert ps["atr_threshold_lookback"].current == Int(50);
    assert ps["atr_threshold_compare_lookback"].current == Int(10);
    assert ps["macd_hist_lookback"].current == Int(2);
  }

  /** The periods handed to the indicator library. */
  datatype Periods = Periods(
    macdFast: Number, macdSlow: Number, macdSignal: Number,
    shortEma: Number, mediumEma: Number, longEma: Number)

  /**
   * The slow MACD period and the medium and long EMA periods are offsets:
   * each is added to the periods below it.
   */
  function DerivedPeriods(a: map<string, Number>): (p: Periods)
    requires ParameterNames <= a.Keys
    ensures p.macdFast == a["macd_fast"] && p.macdSignal == a["macd_signal"] && p.shortEma == a["short_ema_period"]
    ensures p.macdSlow.Real() == a["macd_fast"].Real() + a["macd_slow"].Real()
    ensures p.mediumEma.Real() == a["medium_ema_period"].Real() + a["short_ema_period"].Real()
    ensures p.longEma.Real() == a["long_ema_period"].Real() + a["medium_ema_period"].Real() + a["short_ema_period"].Real()
    ensures p.macdSlow.Int? <==> a["macd_fast"].Int? && a["macd_slow"].Int?
  {
    Periods(
      a["macd_fast"], Add(a["macd_fast"], a["macd_slow"]), a["macd_signal"],
      a["short_ema_period"], Add(a["medium_ema_period"], a["short_ema_period"]),
      Add(Add(a["long_ema_period"], a["medium_ema_period"]), a["short_ema_period"]))
  }

  /** Every parameter is at least the lower bound `get_parameters` declares for it. */
  predicate AtLeastMinimum(a: map<string, Number>)
    requires ParameterNames <= a.Keys
  {
    forall k :: k in ParameterNames ==> GetParameters()[k].min.Real() <= a[k].Real()
  }

  /**
   * Because the offsets are positive whenever the parameters respect their
   * declared lower bounds, the derived periods are strictly ordered:
   * short < medium < long and fast < slow. Integer parameters give integer periods.
   */
  lemma PeriodsOrdered(a: map<string, Number>)
    requires ParameterNames <= a.Keys && AtLeastMinimum(a)
    ensures var p := DerivedPeriods(a);
      && p.shortEma.Real() < p.mediumEma.Real() < p.longEma.Real()
      && p.macdFast.Real() < p.macdSlow.Real()
    ensures var p := DerivedPeriods(a);
      (forall k :: k in ParameterNames && k != "atr_threshold_multiplier" ==> a[k].Int?) ==>
        p.macdSlow.Int? && p.mediumEma.Int? && p.longEma.Int?
  {
    var m := GetParameters();
    assert m["macd_slow"].min.Real() <= a["macd_slow"].Real();
    assert m["medium_ema_period"].min.Real() <= a["medium_ema_period"].Real();
    assert m["long_ema_period"].min.Real() <= a["long_ema_period"].Real();
    assert m["short_ema_period"].min.Real() <= a["short_ema_period"].Real();
  }

  /** With its own parameters the processor uses EMAs of 31, 49 and 92 rows and MACD(1, 6, 41). */
  lemma DefaultPeriods(attrs: map<string, Number>)
    ensures DerivedPeriods(Inject(attrs, GetParameters())) ==
      Periods(Int(1), Int(6), Int(41), Int(31), Int(49), Int(92))
  {
    var ps := GetParameters();
    assert ps["macd_fast"].current == Int(1) && ps["macd_slow"].current == Int(5);
    assert ps["macd_signal"].current == Int(41) && ps["short_ema_period"].current == Int(31);
    assert ps["medium_ema_period"].current == Int(18) && ps["long_ema_period"].current == Int(43);
  }

  // ---------------------------------------------------------------- decimation

  /**
   * `decimate`: a row stays true only when the row before it was false, so
   * that each run of consecutive true rows keeps only its first row.
   */
  function Decimate(s: seq<bool>): (r: seq<bool>)
    ensures |r| == |s|
    ensures forall i :: 0 <= i < |s| ==> (r[i] <==> s[i] && (i == 0 || !s[i - 1]))
  {
    And(s, Not(ShiftBool(s)))
  }

  /** Rows i .. j-1 form one maximal run of true values of s. */
  predicate IsRun(s: seq<bool>, i: int, j: int) {
    && 0 <= i < j <= |s|
    && (forall k :: i <= k < j ==> s[k])
    && (i == 0 || !s[i - 1])
    && (j == |s| || !s[j])
  }

  /** Decimation keeps exactly the first row of every run and clears everything else. */
  lemma DecimateKeepsRunStarts(s: seq<bool>)
    ensures forall k :: 0 <= k < |s| && Decimate(s)[k] ==> s[k]
    ensures forall i, j :: IsRun(s, i, j) ==> Decimate(s)[i] && forall k :: i < k < j ==> !Decimate(s)[k]
  {
  }

  /** Two consecutive rows are never both kept. */
  lemma DecimateNoAdjacent(s: seq<bool>, i: nat)
    requires i + 1 < |s|
    ensures !(Decimate(s)[i] && Decimate(s)[i + 1])
  {
  }

  /** Decimating twice is decimating once. */
  lemma DecimateIdempotent(s: seq<bool>)
    ensures Decimate(Decimate(s)) == Decimate(s)
  {
    var d := Decimate(s);
    forall i | 0 <= i < |s|
      ensures Decimate(d)[i] == d[i]
    {
      if i > 0 && d[i] {
        assert !s[i - 1];
      }
    }
  }

  /** The number of true values. */
  function CountTrue(s: seq<bool>): nat {
    if s == [] then 0 else (if s[0] then 1 else 0) + CountTrue(s[1..])
  }

  /** s without its leading run of true values. */
  function DropRun(s: seq<bool>): (r: seq<bool>)
    ensures |r| <= |s| && (s != [] && s[0] ==> |r| < |s|)
    ensures r == [] || !r[0]
  {
    if s != [] && s[0] then DropRun(s[1..]) else s
  }

  /** The number of maximal runs of consecutive true values. */
  function Runs(s: seq<bool>): nat
    decreases |s|
  {
    if s == [] then 0
    else if s[0] then 1 + Runs(DropRun(s))
    else Runs(s[1..])
  }

  /** s with its first value made false. */
  function ClearHead(s: seq<bool>): seq<bool> {
    if s == [] then [] else [false] + s[1..]
  }

  /** Decimating a series with one more row in front. */
  lemma DecimateCons(b: bool, s: seq<bool>)
    ensures Decimate([b] + s) == [b] + (if b then ClearHead(Decimate(s)) else Decimate(s))
  {
    var x, d := [b] + s, Decimate(s);
    var e := [b] + (if b then ClearHead(d) else d);
    forall i | 0 <= i < |x|
      ensures Decimate(x)[i] == e[i]
    {
      if i >= 1 {
        assert x[i] == s[i - 1];
        if i >= 2 { assert x[i - 1] == s[i - 2]; }
      }
    }
  }

  /** A leading true value added to a run that already starts with true adds no run. */
  lemma RunsTrueCons(s: seq<bool>)
    requires s != [] && s[0]
    ensures Runs([true] + s) == Runs(s)
  {
    assert ([true] + s)[1..] == s;
  }

  lemma CountTrueCons(b: bool, s: seq<bool>)
    ensures CountTrue([b] + s) == (if b then 1 else 0) + CountTrue(s)
  {
    assert ([b] + s)[1..] == s;
  }

  /** Decimation keeps one row per run: it keeps as many rows as the series has runs. */
  lemma {:induction false} DecimateCountsRuns(s: seq<bool>)
    ensures CountTrue(Decimate(s)) == Runs(s)
    decreases |s|
  {
    if s != [] {
      var t := s[1..];
      assert s == [s[0]] + t;
      DecimateCons(s[0], t);
      DecimateCountsRuns(t);
      var d := Decimate(t);
      if !s[0] {
        CountTrueCons(false, d);
      } else {
        CountTrueCons(true, ClearHead(d));
        if t == [] || !t[0] {
          assert ClearHead(d) == d;
          assert DropRun(s) == DropRun(t) == t;
        } else {
          assert d == [true] + d[1..];
          CountTrueCons(true, d[1..]);
          CountTrueCons(false, d[1..]);
          RunsTrueCons(t);
        }
      }
    }
  }

  // ---------------------------------------------------------- volatility filter

  /**
   * The threshold column `rolling_atr_max`: the maximum ATR over `lookback`
   * rows, taken `compare` rows back, times the multiplier.
   */
  function Threshold(atr: Column, lookback: nat, compare: nat, mult: real): (r: Column)
    requires lookback >= 1
    ensures |r| == |atr|
  {
    TimesCol(Shift(RollingMax(atr, lookback), compare), mult)
  }

  /**
   * Row i of the threshold is defined exactly when the window of `lookback`
   * ATR rows ending `compare` rows before i lies inside the table and holds no
   * missing value; it is then the multiplier times one ATR of that window and,
   * for a non-negative multiplier, no smaller than the multiplier times any of them.
   */
  lemma ThresholdAt(atr: Column, lookback: nat, compare: nat, mult: real, i: nat)
    requires lookback >= 1 && i < |atr|
    ensures Threshold(atr, lookback, compare, mult)[i].Some? <==>
      i + 1 >= compare + lookback && forall j :: i + 1 - compare - lookback <= j <= i - compare ==> atr[j].Some?
    ensures var t := Threshold(atr, lookback, compare, mult)[i];
      t.Some? ==>
        && (exists j :: i + 1 - compare - lookback <= j <= i - compare && atr[j].Some? && t.value == mult * atr[j].value)
        && (mult >= 0.0 ==> forall j :: i + 1 - compare - lookback <= j <= i - compare ==> mult * atr[j].value <= t.value)
  {
    if i >= compare {
      var rm := RollingMax(atr, lookback);
      RollingMaxAt(atr, lookback, i - compare);
      assert Threshold(atr, lookback, compare, mult)[i] == Times(rm[i - compare], mult);
      if rm[i - compare].Some? && mult >= 0.0 {
        var m := rm[i - compare].value;
        forall j | i + 1 - compare - lookback <= j <= i - compare
          ensures mult * atr[j].value <= mult * m
        {
          assert atr[j].value <= m;
        }
      }
    }
  }

  /** The volatility filter: the ATR is above the threshold. */
  function VolatilityOk(atr: Column, threshold: Column): (r: seq<bool>)
    requires |atr| == |threshold|
    ensures |r| == |atr|
  {
    GtCol(atr, threshold)
  }

  /**
   * The filter fails wherever the threshold is undefined. With a non-negative
   * multiplier it passes at row i exactly when the threshold window is complete
   * and the row's ATR exceeds the multiplier times every ATR in the window.
   */
  lemma VolatilityOkAt(atr: Column, lookback: nat, compare: nat, mult: real, i: nat)
    requires lookback >= 1 && i < |atr|
    ensures VolatilityOk(atr, Threshold(atr, lookback, compare, mult))[i] ==>
      Threshold(atr, lookback, compare, mult)[i].Some? && i + 1 >= compare + lookback
    ensures mult >= 0.0 ==> (VolatilityOk(atr, Threshold(atr, lookback, compare, mult))[i] <==>
      && atr[i].Some?
      && i + 1 >= compare + lookback
      && (forall j :: i + 1 - compare - lookback <= j <= i - compare ==> atr[j].Some?)
      && (forall j :: i + 1 - compare - lookback <= j <= i - compare ==> atr[i].value > mult * atr[j].value))
  {
    ThresholdAt(atr, lookback, compare, mult, i);
  }

  // ------------------------------------------------------------------- signals

  /** The vectorised buy condition, conjunct by conjunct as the processor combines it. */
  function BuyCondition(f: Indicators, ok: seq<bool>, k: nat): (r: seq<bool>)
    requires f.WellFormed() && |ok| == f.Rows()
    ensures |r| == f.Rows()
  {
    And(And(And(And(And(And(
      GtCol(f.shortEma, f.mediumEma),
      GtCol(f.mediumEma, f.longEma)),
      GtCol(f.close, f.shortEma)),
      ok),
      GtCol(f.macd, f.macdSignal)),
      GtScalar(f.macdHist, 0.0)),
      GtCol(f.macdHist, Shift(f.macdHist, k)))
  }

  /** The vectorised sell condition, the mirror image of the buy condition under the same filter. */
  function SellCondition(f: Indicators, ok: seq<bool>, k: nat): (r: seq<bool>)
    requires f.WellFormed() && |ok| == f.Rows()
    ensures |r| == f.Rows()
  {
    And(And(And(And(And(And(
      LtCol(f.shortEma, f.mediumEma),
      LtCol(f.mediumEma, f.longEma)),
      LtCol(f.close, f.shortEma)),
      ok),
      LtCol(f.macd, f.macdSignal)),
      LtScalar(f.macdHist, 0.0)),
      LtCol(f.macdHist, Shift(f.macdHist, k)))
  }

  /**
   * The buy rule at one row, read directly: a rising EMA stack under the close,
   * the volatility filter, MACD above its signal line, and a positive histogram
   * above its value k rows earlier.
   */
  predicate BuyRule(f: Indicators, ok: seq<bool>, k: nat, i: nat)
    requires f.WellFormed() && |ok| == f.Rows() && i < f.Rows()
  {
    && Gt(f.shortEma[i], f.mediumEma[i]) && Gt(f.mediumEma[i], f.longEma[i])
    && Gt(f.close[i], f.shortEma[i])
    && ok[i]
    && Gt(f.macd[i], f.macdSignal[i]) && Gt(f.macdHist[i], Some(0.0))
    && i >= k && Gt(f.macdHist[i], f.macdHist[i - k])
  }

  /** The sell rule at one row: the mirror image of `BuyRule`. */
  predicate SellRule(f: Indicators, ok: seq<bool>, k: nat, i: nat)
    requires f.WellFormed() && |ok| == f.Rows() && i < f.Rows()
  {
    && Lt(f.shortEma[i], f.mediumEma[i]) && Lt(f.mediumEma[i], f.longEma[i])
    && Lt(f.close[i], f.shortEma[i])
    && ok[i]
    && Lt(f.macd[i], f.macdSignal[i]) && Lt(f.macdHist[i], Some(0.0))
    && i >= k && Lt(f.macdHist[i], f.macdHist[i - k])
  }

  /** The combined conditions hold at a row exactly when the row's rules do; never both. */
  lemma ConditionsAt(f: Indicators, ok: seq<bool>, k: nat, i: nat)
    requires f.WellFormed() && |ok| == f.Rows() && i < f.Rows()
    ensures BuyCondition(f, ok, k)[i] <==> BuyRule(f, ok, k, i)
    ensures SellCondition(f, ok, k)[i] <==> SellRule(f, ok, k, i)
    ensures !(BuyRule(f, ok, k, i) && SellRule(f, ok, k, i))
  {
  }

  /**
   * The signal column after the processor's writes: zero everywhere, then 1
   * under the decimated buy condition, then -1 under the decimated sell condition.
   */
  function SignalColumn(f: Indicators, threshold: Column, k: nat): (r: Column)
    requires f.WellFormed() && |threshold| == f.Rows()
    ensures |r| == f.Rows()
  {
    var ok := VolatilityOk(f.atr, threshold);
    Assign(Assign(Constant(f.Rows(), 0.0), Decimate(BuyCondition(f, ok, k)), 1.0),
           Decimate(SellCondition(f, ok, k)), -1.0)
  }

  /** A row opens a run of rows where the rule holds: it holds here and not on the row before. */
  predicate StartsBuy(f: Indicators, ok: seq<bool>, k: nat, i: nat)
    requires f.WellFormed() && |ok| == f.Rows() && i < f.Rows()
  {
    BuyRule(f, ok, k, i) && (i == 0 || !BuyRule(f, ok, k, i - 1))
  }

  predicate StartsSell(f: Indicators, ok: seq<bool>, k: nat, i: nat)
    requires f.WellFormed() && |ok| == f.Rows() && i < f.Rows()
  {
    SellRule(f, ok, k, i) && (i == 0 || !SellRule(f, ok, k, i - 1))
  }

  /**
   * A row carries 1 exactly when it starts a run of buy rows, -1 exactly when
   * it starts a run of sell rows, and 0 otherwise; the sell write never
   * overwrites a buy because the rules exclude each other.
   */
  lemma SignalMeaning(f: Indicators, threshold: Column, k: nat, i: nat)
    requires f.WellFormed() && |threshold| == f.Rows() && i < f.Rows()
    ensures var ok := VolatilityOk(f.atr, threshold);
      && (SignalColumn(f, threshold, k)[i] == Some(1.0) <==> StartsBuy(f, ok, k, i))
      && (SignalColumn(f, threshold, k)[i] == Some(-1.0) <==> StartsSell(f, ok, k, i))
      && (SignalColumn(f, threshold, k)[i] == Some(0.0) <==> !StartsBuy(f, ok, k, i) && !StartsSell(f, ok, k, i))
  {
    var ok := VolatilityOk(f.atr, threshold);
    ConditionsAt(f, ok, k, i);
    if i > 0 {
      ConditionsAt(f, ok, k, i - 1);
    }
  }

  /** Every signal is -1, 0 or 1. */
  lemma SignalValues(f: Indicators, threshold: Column, k: nat, i: nat)
    requires f.WellFormed() && |threshold| == f.Rows() && i < f.Rows()
    ensures SignalColumn(f, threshold, k)[i] in {Some(-1.0), Some(0.0), Some(1.0)}
  {
    var ok := VolatilityOk(f.atr, threshold);
    SignalMeaning(f, threshold, k, i);
    if StartsSell(f, ok, k, i) {
      assert SignalColumn(f, threshold, k)[i] == Some(-1.0);
    } else if StartsBuy(f, ok, k, i) {
      assert SignalColumn(f, threshold, k)[i] == Some(1.0);
    } else {
      assert SignalColumn(f, threshold, k)[i] == Some(0.0);
    }
  }

  /** Unlike the baseline processor, the same signal never appears on two consecutive rows. */
  lemma NoRepeatedSignal(f: Indicators, threshold: Column, k: nat, i: nat)
    requires f.WellFormed() && |threshold| == f.Rows() && i + 1 < f.Rows()
    ensures SignalColumn(f, threshold, k)[i] == Some(1.0) ==> SignalColumn(f, threshold, k)[i + 1] != Some(1.0)
    ensures SignalColumn(f, threshold, k)[i] == Some(-1.0) ==> SignalColumn(f, threshold, k)[i + 1] != Some(-1.0)
  {
    var ok := VolatilityOk(f.atr, threshold);
    var r := SignalColumn(f, threshold, k);
    assert r[i] == Some(1.0) ==> r[i + 1] != Some(1.0) by {
      SignalMeaning(f, threshold, k, i);
      SignalMeaning(f, threshold, k, i + 1);
      if r[i] == Some(1.0) {
        assert BuyRule(f, ok, k, i) && !StartsBuy(f, ok, k, i + 1);
      }
    }
    assert r[i] == Some(-1.0) ==> r[i + 1] != Some(-1.0) by {
      SignalMeaning(f, threshold, k, i);
      SignalMeaning(f, threshold, k, i + 1);
      if r[i] == Some(-1.0) {
        assert SellRule(f, ok, k, i) && !StartsSell(f, ok, k, i + 1);
      }
    }
  }

  /**
   * Rows before the histogram lookback, and rows whose threshold window does
   * not fit in the table yet, never signal.
   */
  lemma WarmUpFlat(f: Indicators, lookback: nat, compare: nat, mult: real, k: nat, i: nat)
    requires f.WellFormed() && lookback >= 1 && i < f.Rows()
    requires i < k || i + 1 < compare + lookback
    ensures SignalColumn(f, Threshold(f.atr, lookback, compare, mult), k)[i] == Some(0.0)
  {
    var threshold := Threshold(f.atr, lookback, compare, mult);
    ThresholdAt(f.atr, lookback, compare, mult, i);
    SignalMeaning(f, threshold, k, i);
  }

  // ---------------------------------------------------------------- processing

  /** The columns `ProcessCandles` writes before it reads `high` and `low`. */
  const EmaColumns: set<string> := {"short_ema", "medium_ema", "long_ema"}

  /** The ATR and its threshold, written before the MACD lookup. */
  const VolatilityColumns: set<string> := {"atr", "rolling_atr_max"}

  /** The three MACD columns. */
  const MacdColumns: set<string> := {"macd", "macd_signal", "macd_hist"}

  /** The chart-only copies written last. */
  const SeparateColumns: set<string> := {"line_separate_atr", "line_separate_atr_threshold"}

  /** Every column `ProcessCandles` adds or overwrites. */
  const WrittenColumns: set<string> := (EmaColumns + VolatilityColumns + MacdColumns) + ({"signal"} + SeparateColumns)

  /** The EMA column of a given period over the table's close, aligned on its n rows. */
  function Ema(close: Column, n: nat, period: Number, ta: Library): (r: Column)
    ensures |r| == n
  {
    Align(ta.ema(close, period), n)
  }

  /** The three MACD columns as the processor looks them up, under its derived periods. */
  function MacdFor(close: Column, a: map<string, Number>, ta: Library): Result<Macd, TableError>
    requires Configured(a)
  {
    var p := DerivedPeriods(a);
    LookupMacd(ta.macd(close, p.macdFast, p.macdSlow, p.macdSignal), p.macdFast, p.macdSlow, p.macdSignal)
  }

  /**
   * The indicator columns the processor derives from a table's `close`, `high`
   * and `low` columns under its parameters, aligned on the table's n rows.
   */
  function IndicatorsFor(columns: map<string, Column>, n: nat, a: map<string, Number>, ta: Library): (f: Indicators)
    requires "close" in columns && "high" in columns && "low" in columns && Configured(a)
    requires |columns["close"]| == n && MacdFor(columns["close"], a, ta).Success?
    ensures f.WellFormed() && f.Rows() == n
    ensures f.close == columns["close"]
  {
    var close := columns["close"];
    var p := DerivedPeriods(a);
    var macd := MacdFor(close, a, ta).value;
    Indicators(close,
      Ema(close, n, p.shortEma, ta), Ema(close, n, p.mediumEma, ta), Ema(close, n, p.longEma, ta),
      Align(ta.atr(columns["high"], columns["low"], close, a["atr_period"]), n),
      Align(macd.line, n), Align(macd.signal, n), Align(macd.hist, n))
  }

  /** The threshold column for an ATR column under the processor's parameters. */
  function ThresholdFor(atr: Column, a: map<string, Number>): (r: Column)
    requires Configured(a)
    ensures |r| == |atr|
  {
    Threshold(atr, a["atr_threshold_lookback"].i, a["atr_threshold_compare_lookback"].i,
              a["atr_threshold_multiplier"].Real())
  }

  /** A table after the processor has written its EMA columns, the ATR and its threshold over n rows. */
  function VolatilityWritten(columns: map<string, Column>, n: nat, a: map<string, Number>, ta: Library): (r: map<string, Column>)
    requires "close" in columns && "high" in columns && "low" in columns && Configured(a)
    ensures Overwrites(columns, r, EmaColumns + VolatilityColumns)
    ensures r["close"] == columns["close"]
  {
    var close, p := columns["close"], DerivedPeriods(a);
    var atr := Align(ta.atr(columns["high"], columns["low"], close, a["atr_period"]), n);
    columns["short_ema" := Ema(close, n, p.shortEma, ta)]["medium_ema" := Ema(close, n, p.mediumEma, ta)]
      ["long_ema" := Ema(close, n, p.longEma, ta)]["atr" := atr]["rolling_atr_max" := ThresholdFor(atr, a)]
  }

  /**
   * `process_candles`. There is no column guard: a table without `close` fails
   * on the first read with nothing written; one without `high` or `low` fails
   * after the three EMA columns have been written; a MACD result that is
   * missing or names its columns differently fails after the ATR and its
   * threshold have been written too. Otherwise the MACD and signal columns are
   * written and the ATR and its threshold are copied into the two chart columns.
   */
  method ProcessCandles(processor: Processor, candles: Candles, ta: Library) returns (r: Outcome<TableError>)
    requires candles.Valid() && Configured(processor.attrs)
    modifies candles
    ensures candles.Valid()
    ensures r.Fail? <==>
      || !("close" in old(candles.columns) && "high" in old(candles.columns) && "low" in old(candles.columns))
      || MacdFor(old(candles.columns)["close"], processor.attrs, ta).Failure?
    ensures "close" !in old(candles.columns) ==> r == Fail(KeyError("close")) && candles.columns == old(candles.columns)
    ensures "close" in old(candles.columns) && !("high" in old(candles.columns) && "low" in old(candles.columns)) ==>
      var before, p := old(candles.columns), DerivedPeriods(processor.attrs);
      var close, n := before["close"], candles.rows;
      && r == Fail(KeyError(if "high" !in before then "high" else "low"))
      && candles.columns == before["short_ema" := Ema(close, n, p.shortEma, ta)]
           ["medium_ema" := Ema(close, n, p.mediumEma, ta)]["long_ema" := Ema(close, n, p.longEma, ta)]
    ensures var before, a := old(candles.columns), processor.attrs;
      "close" in before && "high" in before && "low" in before && MacdFor(before["close"], a, ta).Failure? ==>
      && r == Fail(MacdFor(before["close"], a, ta).error)
      && candles.columns == VolatilityWritten(before, |before["close"]|, a, ta)
    ensures r.Pass? ==>
      var before, after, a := old(candles.columns), candles.columns, processor.attrs;
      var f := IndicatorsFor(before, |before["close"]|, a, ta);
      var threshold := ThresholdFor(f.atr, a);
      && Overwrites(before, after, WrittenColumns)
      && IndicatorsOf(after) == f
      && after["rolling_atr_max"] == threshold
      && after["signal"] == SignalColumn(f, threshold, a["macd_hist_lookback"].i)
      && after["line_separate_atr"] == f.atr
      && after["line_separate_atr_threshold"] == threshold
  {
    if "close" !in candles.columns {
      return Fail(KeyError("close"));
    }
    var a, n := processor.attrs, candles.rows;
    var close := candles.columns["close"];
    var p := DerivedPeriods(a);
    var before := candles.columns;
    WriteEmas(candles, Ema(close, n, p.shortEma, ta), Ema(close, n, p.mediumEma, ta), Ema(close, n, p.longEma, ta));
    if "high" !in candles.columns {
      return Fail(KeyError("high"));
    }
    if "low" !in candles.columns {
      return Fail(KeyError("low"));
    }
    WriteVolatility(candles, Align(ta.atr(candles.columns["high"], candles.columns["low"], close, a["atr_period"]), n), a);
    var macd := MacdFor(close, a, ta);
    if macd.Failure? {
      return Fail(macd.error);
    }
    WriteRest(candles, before, a, ta);
    r := Pass;
  }

  /** The three EMA columns, in the order the processor writes them. */
  method WriteEmas(candles: Candles, short: Column, medium: Column, long: Column)
    requires candles.Valid() && |short| == |medium| == |long| == candles.rows
    modifies candles
    ensures candles.Valid()
    ensures candles.columns == old(candles.columns)["short_ema" := short]["medium_ema" := medium]["long_ema" := long]
  {
    candles.SetColumn("short_ema", short);
    candles.SetColumn("medium_ema", medium);
    candles.SetColumn("long_ema", long);
  }

  /** The ATR column and, derived from it, the threshold column `rolling_atr_max`. */
  method WriteVolatility(candles: Candles, atr: Column, a: map<string, Number>)
    requires candles.Valid() && |atr| == candles.rows && Configured(a)
    modifies candles
    ensures candles.Valid()
    ensures candles.columns == old(candles.columns)["atr" := atr]["rolling_atr_max" := ThresholdFor(atr, a)]
  {
    candles.SetColumn("atr", atr);
    candles.SetColumn("rolling_atr_max", ThresholdFor(candles.columns["atr"], a));
  }

  /**
   * Everything `process_candles` writes once the MACD lookup has found its
   * columns: the MACD columns, the signal, and the two chart columns.
   */
  method WriteRest(candles: Candles, before: map<string, Column>, a: map<string, Number>, ta: Library)
    requires candles.Valid() && "close" in before && "high" in before && "low" in before && Configured(a)
    requires |before["close"]| == candles.rows && MacdFor(before["close"], a, ta).Success?
    requires candles.columns == VolatilityWritten(before, candles.rows, a, ta)
    modifies candles
    ensures candles.Valid()
    ensures var f := IndicatorsFor(before, candles.rows, a, ta);
      var threshold := ThresholdFor(f.atr, a);
      && Overwrites(before, candles.columns, WrittenColumns)
      && IndicatorsOf(candles.columns) == f
      && candles.columns["rolling_atr_max"] == threshold
      && candles.columns["signal"] == SignalColumn(f, threshold, a["macd_hist_lookback"].i)
      && candles.columns["line_separate_atr"] == f.atr
      && candles.columns["line_separate_atr_threshold"] == threshold
  {
    WriteMacd(candles, MacdFor(before["close"], a, ta).value);
    var f := IndicatorsFor(before, candles.rows, a, ta);
    IndicatorsAfterWrites(before, candles.rows, a, ta);
    ghost var indicators := candles.columns;
    WriteSignalAndCharts(candles, f, ThresholdFor(f.atr, a), a["macd_hist_lookback"].i);
    OverwritesTrans(before, indicators, candles.columns, EmaColumns + VolatilityColumns + MacdColumns, {"signal"} + SeparateColumns);
  }

  /**
   * Writing the EMA, ATR and threshold columns and then the looked-up MACD
   * columns over a table leaves the table's indicators and threshold in it.
   */
  lemma IndicatorsAfterWrites(before: map<string, Column>, n: nat, a: map<string, Number>, ta: Library)
    requires "close" in before && "high" in before && "low" in before && Configured(a)
    requires |before["close"]| == n && MacdFor(before["close"], a, ta).Success?
    ensures var macd := MacdFor(before["close"], a, ta).value;
      var after := VolatilityWritten(before, n, a, ta)
        ["macd" := Align(macd.line, n)]["macd_signal" := Align(macd.signal, n)]["macd_hist" := Align(macd.hist, n)];
      var f := IndicatorsFor(before, n, a, ta);
      && Overwrites(before, after, EmaColumns + VolatilityColumns + MacdColumns)
      && IndicatorColumns <= after.Keys && IndicatorsOf(after) == f
      && after["rolling_atr_max"] == ThresholdFor(f.atr, a)
  {
  }

  /** The signal, then the two chart columns, over a table that holds f's indicators and the threshold. */
  method WriteSignalAndCharts(candles: Candles, ghost f: Indicators, ghost threshold: Column, k: nat)
    requires candles.Valid() && IndicatorColumns <= candles.columns.Keys && IndicatorsOf(candles.columns) == f
    requires "rolling_atr_max" in candles.columns && candles.columns["rolling_atr_max"] == threshold
    modifies candles
    ensures candles.Valid()
    ensures Overwrites(old(candles.columns), candles.columns, {"signal"} + SeparateColumns)
    ensures IndicatorsOf(candles.columns) == f
    ensures candles.columns["rolling_atr_max"] == threshold
    ensures candles.columns["signal"] == SignalColumn(f, threshold, k)
    ensures candles.columns["line_separate_atr"] == f.atr
    ensures candles.columns["line_separate_atr_threshold"] == threshold
  {
    ghost var before := candles.columns;
    WriteSignal(candles, f, k);
    ghost var signalled := candles.columns;
    WriteSeparateColumns(candles);
    SeparateColumnsKeep(signalled, f.atr, threshold);
    OverwritesTrans(before, signalled, candles.columns, {"signal"}, SeparateColumns);
  }

  /** `signal` is zeroed, then the decimated buy and sell conditions are written into it. */
  method WriteSignal(candles: Candles, ghost f: Indicators, k: nat)
    requires candles.Valid() && IndicatorColumns <= candles.columns.Keys && IndicatorsOf(candles.columns) == f
    requires "rolling_atr_max" in candles.columns
    modifies candles
    ensures candles.Valid()
    ensures Overwrites(old(candles.columns), candles.columns, {"signal"})
    ensures IndicatorsOf(candles.columns) == f
    ensures candles.columns == old(candles.columns)["signal" := SignalColumn(f, old(candles.columns)["rolling_atr_max"], k)]
  {
    var n := candles.rows;
    var threshold := candles.columns["rolling_atr_max"];
    var ok := VolatilityOk(candles.columns["atr"], threshold);
    IndicatorsOfUpdate(candles.columns, "signal", Constant(n, 0.0));
    candles.columns := candles.columns["signal" := Constant(n, 0.0)];
    var buy := Decimate(BuyCondition(IndicatorsOf(candles.columns), ok, k));
    IndicatorsOfUpdate(candles.columns, "signal", Assign(candles.columns["signal"], buy, 1.0));
    candles.columns := candles.columns["signal" := Assign(candles.columns["signal"], buy, 1.0)];
    var sell := Decimate(SellCondition(IndicatorsOf(candles.columns), ok, k));
    IndicatorsOfUpdate(candles.columns, "signal", Assign(candles.columns["signal"], sell, -1.0));
    candles.columns := candles.columns["signal" := Assign(candles.columns["signal"], sell, -1.0)];
  }

  /** The ATR and its threshold are copied into the two chart columns. */
  method WriteSeparateColumns(candles: Candles)
    requires candles.Valid() && "atr" in candles.columns && "rolling_atr_max" in candles.columns
    modifies candles
    ensures candles.Valid()
    ensures candles.columns == old(candles.columns)["line_separate_atr" := old(candles.columns)["atr"]]
      ["line_separate_atr_threshold" := old(candles.columns)["rolling_atr_max"]]
  {
    candles.SetColumn("line_separate_atr", candles.columns["atr"]);
    candles.SetColumn("line_separate_atr_threshold", candles.columns["rolling_atr_max"]);
  }

  /**
   * The two chart-column writes overwrite only the chart columns and keep the
   * indicators, the threshold and the signal.
   */
  lemma SeparateColumnsKeep(columns: map<string, Column>, atr: Column, threshold: Column)
    requires IndicatorColumns <= columns.Keys && "rolling_atr_max" in columns && "signal" in columns
    ensures var after := columns["line_separate_atr" := atr]["line_separate_atr_threshold" := threshold];
      && Overwrites(columns, after, SeparateColumns)
      && IndicatorColumns <= after.Keys && IndicatorsOf(after) == IndicatorsOf(columns)
      && after["rolling_atr_max"] == columns["rolling_atr_max"] && after["signal"] == columns["signal"]
      && after["line_separate_atr"] == atr && after["line_separate_atr_threshold"] == threshold
  {
  }
}
