/**
 * The contract between the host controller and a signal processor: numeric
 * parameter values, parameter descriptors, the processor object whose
 * attributes the host sets, and the indicator library a processor calls.
 */
module Plugin {
  import opened Wrappers
  import opened Series

  /** A Python number: an `int` or a `float`. */
  datatype Number = Int(i: int) | Float(f: real) {
    function Real(): real {
      match this
      case Int(i) => i as real
      case Float(f) => f
    }
  }

  /** Python `a + b` on numbers: int + int stays an int, anything else is a float. */
  function Add(a: Number, b: Number): (r: Number)
    ensures r.Real() == a.Real() + b.Real()
    ensures r.Int? <==> a.Int? && b.Int?
  {
    if a.Int? && b.Int? then Int(a.i + b.i) else Float(a.Real() + b.Real())
  }

  /** One entry of a processor's `get_parameters()` mapping. */
  datatype Param = Param(current: Number, min: Number, max: Number, step: Option<Number>)

  /** The descriptor invariant `min <= current <= max`. */
  predicate InRange(p: Param) {
    p.min.Real() <= p.current.Real() <= p.max.Real()
  }

  /**
   * The attributes a processor has after every parameter's `current` value
   * has been set on it under the parameter's name.
   */
  function Inject(attrs: map<string, Number>, params: map<string, Param>): (r: map<string, Number>)
    ensures r.Keys == attrs.Keys + params.Keys
    ensures forall k :: k in params ==> r[k] == params[k].current
    ensures forall k :: k in attrs && k !in params ==> r[k] == attrs[k]
  {
    attrs + map k | k in params :: params[k].current
  }

  /**
   * A loaded signal processor. `parameters` is the mapping its
   * `get_parameters` returns, or None when it has no such method;
   * `attrs` are the attributes set on the instance from outside.
   */
  class Processor {
    const parameters: Option<map<string, Param>>
    var attrs: map<string, Number>

    constructor (parameters: Option<map<string, Param>>)
      ensures this.parameters == parameters && attrs == map[]
    {
      this.parameters := parameters;
      attrs := map[];
    }
  }

  /**
   * What `ta.macd` returns when it has a result: the MACD line, its signal
   * line and their histogram, and the integer fast, slow and signal periods
   * the library writes into the names of those three columns.
   */
  datatype Macd = Macd(line: Column, signal: Column, hist: Column, fast: int, slow: int, signalPeriod: int)

  /**
   * The indicator library the processors call (`ta.ema`, `ta.atr`, `ta.macd`).
   * Its numerics are not part of this model: a processor is given them as
   * functions. `macd` has no result (None) for some inputs, a close column
   * shorter than its periods among them.
   */
  datatype Library = Library(
    ema: (Column, Number) -> Column,
    atr: (Column, Column, Column, Number) -> Column,
    macd: (Column, Number, Number, Number) -> Option<Macd>)

  /**
   * The processor's lookups `macd[f"MACD_{fast}_{slow}_{signal}"]` (and the
   * `MACDs_` and `MACDh_` ones) on what `ta.macd` returned. Indexing a missing
   * result is a TypeError. The names the processor builds match the library's
   * exactly when every period it passed is the integer the library named the
   * columns after: an integer renders as its digits, and a float never renders
   * the way an integer does. Any other result is a KeyError.
   */
  function LookupMacd(result: Option<Macd>, fast: Number, slow: Number, signal: Number): (r: Result<Macd, TableError>)
    ensures r.Success? <==>
      result.Some? && fast == Int(result.value.fast) && slow == Int(result.value.slow) && signal == Int(result.value.signalPeriod)
    ensures r.Success? ==> r.value == result.value
    ensures result.None? ==> r == Failure(NotSubscriptable)
    ensures result.Some? && r.Failure? ==> r == Failure(MissingResultColumn)
  {
    if result.None? then Failure(NotSubscriptable)
    else if fast == Int(result.value.fast) && slow == Int(result.value.slow) && signal == Int(result.value.signalPeriod)
    then Success(result.value)
    else Failure(MissingResultColumn)
  }

  /** The columns a processor reads its buy and sell rules from, all of one length. */
  datatype Indicators = Indicators(
    close: Column, shortEma: Column, mediumEma: Column, longEma: Column,
    atr: Column, macd: Column, macdSignal: Column, macdHist: Column)
  {
    predicate WellFormed() {
      && |shortEma| == |close| && |mediumEma| == |close| && |longEma| == |close|
      && |atr| == |close| && |macd| == |close| && |macdSignal| == |close| && |macdHist| == |close|
    }

    function Rows(): nat { |close| }
  }

  /** The names under which a processor stores the columns of `Indicators`. */
  const IndicatorColumns: set<string> :=
    {"close", "short_ema", "medium_ema", "long_ema", "atr", "macd", "macd_signal", "macd_hist"}

  /** The indicator columns of a table that has them all. */
  function IndicatorsOf(columns: map<string, Column>): Indicators
    requires IndicatorColumns <= columns.Keys
  {
    Indicators(columns["close"], columns["short_ema"], columns["medium_ema"], columns["long_ema"],
               columns["atr"], columns["macd"], columns["macd_signal"], columns["macd_hist"])
  }

  /** Writing a column that is not an indicator column leaves the indicators as they were. */
  lemma IndicatorsOfUpdate(columns: map<string, Column>, name: string, s: Column)
    requires IndicatorColumns <= columns.Keys && name !in IndicatorColumns
    ensures IndicatorColumns <= columns[name := s].Keys
    ensures IndicatorsOf(columns[name := s]) == IndicatorsOf(columns)
  {
  }

  /** The MACD line, signal and histogram columns, in the order both processors write them over the table's rows. */
  method WriteMacd(candles: Candles, macd: Macd)
    requires candles.Valid()
    modifies candles
    ensures candles.Valid()
    ensures candles.columns == old(candles.columns)
      ["macd" := Align(macd.line, candles.rows)]["macd_signal" := Align(macd.signal, candles.rows)]
      ["macd_hist" := Align(macd.hist, candles.rows)]
  {
    var n := candles.rows;
    candles.SetColumn("macd", Align(macd.line, n));
    candles.SetColumn("macd_signal", Align(macd.signal, n));
    candles.SetColumn("macd_hist", Align(macd.hist, n));
  }
}
