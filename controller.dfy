/**
 * The directional controller that hosts a signal processor: its configuration
 * validators, the triple-barrier settings it derives, its construction
 * (default candle feed, processor instantiation and parameter injection) and
 * its per-cycle update, which runs the processor over the candle table and
 * publishes the last signal together with the table.
 */
module Controller {
  import opened Wrappers
  import opened Series
  import opened Plugin
  import Smugplug
  import SmugplugEmerald

  // ---------------------------------------------------------------- order types

  /** The exchange order types, each with its member name and its integer value. */
  datatype OrderType = Market | Limit | LimitMaker | AmmSwap {
    function Name(): string {
      match this
      case Market => "MARKET"
      case Limit => "LIMIT"
      case LimitMaker => "LIMIT_MAKER"
      case AmmSwap => "AMM_SWAP"
    }

    function Code(): int {
      match this
      case Market => 1
      case Limit => 2
      case LimitMaker => 3
      case AmmSwap => 4
    }
  }

  /** Member names and values identify the member. */
  lemma NameAndCodeInjective(a: OrderType, b: OrderType)
    ensures a.Name() == b.Name() ==> a == b
    ensures a.Code() == b.Code() ==> a == b
  {
  }

  /** `OrderType[name]`: the member with that name, if any. */
  function FromName(name: string): (r: Option<OrderType>)
    ensures r.Some? ==> r.value.Name() == name
    ensures r.None? ==> forall t: OrderType :: t.Name() != name
  {
    if name == "MARKET" then Some(Market)
    else if name == "LIMIT" then Some(Limit)
    else if name == "LIMIT_MAKER" then Some(LimitMaker)
    else if name == "AMM_SWAP" then Some(AmmSwap)
    else None
  }

  /** `OrderType(code)`: the member with that value, if any. */
  function FromCode(code: int): (r: Option<OrderType>)
    ensures r.Some? ==> r.value.Code() == code
    ensures r.None? ==> forall t: OrderType :: t.Code() != code
  {
    if code == 1 then Some(Market)
    else if code == 2 then Some(Limit)
    else if code == 3 then Some(LimitMaker)
    else if code == 4 then Some(AmmSwap)
    else None
  }

  /**
   * `str.upper` as far as membership among the order type names can tell:
   * ASCII letters, plus the two non-ASCII letters whose upper case is an ASCII
   * letter (dotless i and long s). Every other character is kept; no other
   * character can become part of a member name.
   */
  function UpperChar(c: char): char {
    if 'a' <= c <= 'z' then (c as int - 32) as char
    else if c == 'ı' then 'I'
    else if c == 'ſ' then 'S'
    else c
  }

  function Upper(s: string): (r: string)
    ensures |r| == |s| && forall i :: 0 <= i < |s| ==> r[i] == UpperChar(s[i])
  {
    seq(|s|, i requires 0 <= i < |s| => UpperChar(s[i]))
  }

  /** The value a configuration field arrives with, before validation. */
  datatype RawValue =
    | OrderTypeValue(t: OrderType)
    | NoneValue
    | Str(s: string)
    | IntValue(i: int)
    | BoolValue(b: bool)   // a Python bool, which is also an int
    | OtherValue           // any other type

  /** The `ValueError` a validator raises. */
  datatype ConfigError = InvalidOrderType(value: RawValue)

  /**
   * `validate_order_type`: an order type passes unchanged, None means MARKET, a
   * string is looked up by its upper-cased name, an integer (a bool included)
   * by value; anything else, and every failed lookup, is an error.
   */
  function ValidateOrderType(v: RawValue): (r: Result<OrderType, ConfigError>)
    ensures r.Failure? ==> r.error == InvalidOrderType(v)
  {
    match v
    case OrderTypeValue(t) => Success(t)
    case NoneValue => Success(Market)
    case Str(s) =>
      var name := Upper(s);
      if FromName(name).Some? then Success(FromName(name).value) else Failure(InvalidOrderType(v))
    case IntValue(i) =>
      if FromCode(i).Some? then Success(FromCode(i).value) else Failure(InvalidOrderType(v))
    case BoolValue(b) =>
      var code := if b then 1 else 0;
      if FromCode(code).Some? then Success(FromCode(code).value) else Failure(InvalidOrderType(v))
    case OtherValue => Failure(InvalidOrderType(v))
  }

  /**
   * Which raw values the validator accepts, and what it makes of them: a
   * string exactly when its upper case is a member name, an integer exactly
   * when it is a member value, and a bool as the integer 0 or 1.
   */
  lemma ValidateOrderTypeAccepts(v: RawValue)
    ensures v.OrderTypeValue? ==> ValidateOrderType(v) == Success(v.t)
    ensures v.NoneValue? ==> ValidateOrderType(v) == Success(Market)
    ensures v.Str? ==> (ValidateOrderType(v).Success? <==> exists t: OrderType :: t.Name() == Upper(v.s))
    ensures v.Str? && ValidateOrderType(v).Success? ==> ValidateOrderType(v).value.Name() == Upper(v.s)
    ensures v.IntValue? ==> (ValidateOrderType(v).Success? <==> 1 <= v.i <= 4)
    ensures v.IntValue? && ValidateOrderType(v).Success? ==> ValidateOrderType(v).value.Code() == v.i
    ensures v.BoolValue? ==> ValidateOrderType(v) == if v.b then Success(Market) else Failure(InvalidOrderType(v))
    ensures v.OtherValue? ==> ValidateOrderType(v).Failure?
  {
    if v.Str? && FromName(Upper(v.s)).Some? {
      assert FromName(Upper(v.s)).value.Name() == Upper(v.s);
    }
    if v.IntValue? && 1 <= v.i <= 4 {
      assert FromCode(v.i).Some?;
    }
  }

  /** Letter case does not matter: strings with the same upper case validate alike. */
  lemma CaseInsensitive(s: string, t: string)
    requires Upper(s) == Upper(t)
    ensures ValidateOrderType(Str(s)).Success? <==> ValidateOrderType(Str(t)).Success?
    ensures ValidateOrderType(Str(s)).Success? ==> ValidateOrderType(Str(s)).value == ValidateOrderType(Str(t)).value
  {
  }

  /** Every member is found by its name, by its value, and as itself. */
  lemma MembersRoundTrip(t: OrderType)
    ensures ValidateOrderType(Str(t.Name())) == Success(t)
    ensures ValidateOrderType(IntValue(t.Code())) == Success(t)
    ensures ValidateOrderType(OrderTypeValue(t)) == Success(t)
  {
    assert Upper(t.Name()) == t.Name();
  }

  /** Validating the validator's own result gives it back. */
  lemma ValidateOrderTypeIdempotent(v: RawValue)
    requires ValidateOrderType(v).Success?
    ensures ValidateOrderType(OrderTypeValue(ValidateOrderType(v).value)) == ValidateOrderType(v)
  {
  }

  /**
   * Examples of the lookup rules: the default "MARKET", a lower-case name and
   * one spelled with a dotless i are accepted; a numeric string never reaches
   * the integer lookup and is rejected, and so is the integer 0.
   */
  /** The raw default of the open order type field, which the validator also runs on. */
  const DefaultOpenOrderType: RawValue := Str("MARKET")

  lemma OrderTypeExamples()
    ensures ValidateOrderType(DefaultOpenOrderType) == Success(Market)
    ensures ValidateOrderType(Str("limit_maker")) == Success(LimitMaker)
    ensures ValidateOrderType(Str("lımıt")) == Success(Limit)
    ensures ValidateOrderType(Str("1")).Failure?
    ensures ValidateOrderType(IntValue(0)).Failure?
  {
    assert Upper("MARKET") == "MARKET";
    assert Upper("limit_maker") == "LIMIT_MAKER";
    assert Upper("lımıt") == "LIMIT";
    assert Upper("1") == "1";
  }

  // ------------------------------------------------------- candle-feed fields

  /**
   * The shared rule of `set_candles_connector` and `set_candles_trading_pair`:
   * a missing or empty value is replaced by the already validated field `key`
   * (missing when that field is), any other value is kept.
   */
  function DefaultTo(v: Option<string>, values: map<string, string>, key: string): (r: Option<string>)
    ensures v.Some? && v.value != "" ==> r == v
    ensures v.None? || v.value == "" ==> (r.Some? <==> key in values)
    ensures v.None? || v.value == "" ==> r.Some? ==> r.value == values[key]
  {
    if v.None? || v.value == "" then (if key in values then Some(values[key]) else None) else v
  }

  /** `set_candles_connector`: the candle connector defaults to the trading connector. */
  function SetCandlesConnector(v: Option<string>, values: map<string, string>): (r: Option<string>)
    ensures v.Some? && v.value != "" ==> r == v
    ensures v.None? || v.value == "" ==> r == (if "connector_name" in values then Some(values["connector_name"]) else None)
  {
    DefaultTo(v, values, "connector_name")
  }

  /** `set_candles_trading_pair`: the candle trading pair defaults to the traded pair. */
  function SetCandlesTradingPair(v: Option<string>, values: map<string, string>): (r: Option<string>)
    ensures v.Some? && v.value != "" ==> r == v
    ensures v.None? || v.value == "" ==> r == (if "trading_pair" in values then Some(values["trading_pair"]) else None)
  {
    DefaultTo(v, values, "trading_pair")
  }

  /** Running either validator on its own result changes nothing. */
  lemma CandleDefaultsIdempotent(v: Option<string>, values: map<string, string>)
    ensures SetCandlesConnector(SetCandlesConnector(v, values), values) == SetCandlesConnector(v, values)
    ensures SetCandlesTradingPair(SetCandlesTradingPair(v, values), values) == SetCandlesTradingPair(v, values)
  {
  }

  // ------------------------------------------------------------ configuration

  /** The example processor sources a controller can be configured with. */
  datatype ProcessorCode = SmugplugCode | SmugplugEmeraldCode

  datatype TrailingStop = TrailingStop(activationPrice: real, trailingDelta: real)

  /** The validated configuration fields the controller reads. */
  datatype Settings = Settings(
    candlesConnector: Option<string>, candlesTradingPair: Option<string>,
    interval: string, maxRecords: int,
    stopLoss: Option<real>, takeProfit: Option<real>, timeLimit: Option<int>,
    trailingStop: Option<TrailingStop>,
    openOrderType: OrderType, takeProfitOrderType: OrderType,
    processorCode: ProcessorCode)

  /** The exit settings of every position the controller opens. */
  datatype TripleBarrierConfig = TripleBarrierConfig(
    stopLoss: Option<real>, takeProfit: Option<real>, timeLimit: Option<int>,
    trailingStop: Option<TrailingStop>,
    openOrderType: OrderType, takeProfitOrderType: OrderType,
    stopLossOrderType: OrderType, timeLimitOrderType: OrderType)

  /**
   * `triple_barrier_config`: stop-loss and time-limit exits are always market
   * orders, whatever the configured order types; every other field is copied.
   */
  function TripleBarrier(s: Settings): (r: TripleBarrierConfig)
    ensures r.stopLossOrderType == Market && r.timeLimitOrderType == Market
    ensures r.stopLoss == s.stopLoss && r.takeProfit == s.takeProfit && r.timeLimit == s.timeLimit
    ensures r.trailingStop == s.trailingStop
    ensures r.openOrderType == s.openOrderType && r.takeProfitOrderType == s.takeProfitOrderType
  {
    TripleBarrierConfig(s.stopLoss, s.takeProfit, s.timeLimit, s.trailingStop,
      s.openOrderType, s.takeProfitOrderType, Market, Market)
  }

  /** One candle feed the controller subscribes to. */
  datatype CandlesConfig = CandlesConfig(
    connector: Option<string>, tradingPair: Option<string>, interval: string, maxRecords: int)

  /** The controller configuration; its candle feed list is the one field the controller changes. */
  class ControllerConfig {
    const settings: Settings
    var candlesConfig: seq<CandlesConfig>

    constructor (settings: Settings, candlesConfig: seq<CandlesConfig>)
      ensures this.settings == settings && this.candlesConfig == candlesConfig
    {
      this.settings := settings;
      this.candlesConfig := candlesConfig;
    }
  }

  // ----------------------------------------------------------- the controller

  /** The parameters `get_parameters` of the configured processor returns. */
  function ParametersOf(code: ProcessorCode): (r: map<string, Param>)
    ensures r.Keys == match code
      case SmugplugCode => Smugplug.ParameterNames
      case SmugplugEmeraldCode => SmugplugEmerald.ParameterNames
    ensures forall k :: k in r ==> InRange(r[k])
  {
    match code
    case SmugplugCode => Smugplug.GetParameters()
    case SmugplugEmeraldCode => SmugplugEmerald.GetParameters()
  }

  /** The processor's attributes are enough for its `process_candles`. */
  predicate ConfiguredFor(code: ProcessorCode, attrs: map<string, Number>) {
    match code
    case SmugplugCode => Smugplug.Configured(attrs)
    case SmugplugEmeraldCode => SmugplugEmerald.Configured(attrs)
  }

  /** The processor's MACD lookup fails on a close column: the library has no result or names its columns otherwise. */
  predicate MacdFails(code: ProcessorCode, close: Column, attrs: map<string, Number>, ta: Library)
    requires ConfiguredFor(code, attrs)
  {
    match code
    case SmugplugCode => Smugplug.MacdFor(close, attrs, ta).Failure?
    case SmugplugEmeraldCode => SmugplugEmerald.MacdFor(close, attrs, ta).Failure?
  }

  /** The last row of a table's signal column is a signal value. */
  ghost predicate LastSignalValid(candles: Candles)
    reads candles
  {
    "signal" in candles.columns
    && (candles.rows > 0 && |candles.columns["signal"]| == candles.rows ==>
          candles.columns["signal"][candles.rows - 1] in {Some(-1.0), Some(0.0), Some(1.0)})
  }

  /** The configured processor's `process_candles`, as far as the controller relies on it. */
  method RunProcessor(code: ProcessorCode, processor: Processor, candles: Candles, ta: Library) returns (r: Outcome<TableError>)
    requires candles.Valid() && ConfiguredFor(code, processor.attrs)
    modifies candles
    ensures candles.Valid()
    ensures r.Fail? <==>
      || !("close" in old(candles.columns) && "high" in old(candles.columns) && "low" in old(candles.columns))
      || MacdFails(code, old(candles.columns)["close"], processor.attrs, ta)
    ensures r.Pass? ==> LastSignalValid(candles)
  {
    match code
    case SmugplugCode => r := RunSmugplug(processor, candles, ta);
    case SmugplugEmeraldCode => r := RunSmugplugEmerald(processor, candles, ta);
  }

  /** The baseline processor on a table; every signal it writes is -1, 0 or 1. */
  method RunSmugplug(processor: Processor, candles: Candles, ta: Library) returns (r: Outcome<TableError>)
    requires candles.Valid() && Smugplug.Configured(processor.attrs)
    modifies candles
    ensures candles.Valid()
    ensures r.Fail? <==>
      || !("close" in old(candles.columns) && "high" in old(candles.columns) && "low" in old(candles.columns))
      || Smugplug.MacdFor(old(candles.columns)["close"], processor.attrs, ta).Failure?
    ensures r.Pass? ==> LastSignalValid(candles)
  {
    var before := candles.columns;
    var a := processor.attrs;
    r := Smugplug.ProcessCandles(processor, candles, ta);
    if r.Pass? && candles.rows > 0 {
      var f := Smugplug.IndicatorsFor(before, candles.rows, a, ta);
      Smugplug.SignalValues(f, a["atr_multiplier"].Real(), candles.rows - 1);
    }
  }

  /** The emerald processor on a table; every signal it writes is -1, 0 or 1. */
  method RunSmugplugEmerald(processor: Processor, candles: Candles, ta: Library) returns (r: Outcome<TableError>)
    requires candles.Valid() && SmugplugEmerald.Configured(processor.attrs)
    modifies candles
    ensures candles.Valid()
    ensures r.Fail? <==>
      || !("close" in old(candles.columns) && "high" in old(candles.columns) && "low" in old(candles.columns))
      || SmugplugEmerald.MacdFor(old(candles.columns)["close"], processor.attrs, ta).Failure?
    ensures r.Pass? ==> LastSignalValid(candles)
  {
    var before := candles.columns;
    var a := processor.attrs;
    r := SmugplugEmerald.ProcessCandles(processor, candles, ta);
    if r.Pass? && candles.rows > 0 {
      var f := SmugplugEmerald.IndicatorsFor(before, candles.rows, a, ta);
      SmugplugEmerald.SignalValues(f, SmugplugEmerald.ThresholdFor(f.atr, a), a["macd_hist_lookback"].i, candles.rows - 1);
    }
  }

  /** Injecting a processor's own parameters configures it, whatever attributes it had. */
  lemma InjectionConfigures(code: ProcessorCode, attrs: map<string, Number>)
    ensures ConfiguredFor(code, Inject(attrs, ParametersOf(code)))
  {
    match code
    case SmugplugCode => Smugplug.InjectedParametersConfigure(attrs);
    case SmugplugEmeraldCode => SmugplugEmerald.InjectedParametersConfigure(attrs);
  }

  /**
   * The parameter-override loop of the constructor: for every parameter of a
   * processor that has `get_parameters`, the attribute of that name is set to
   * the parameter's current value. Other attributes keep their values; a
   * processor without `get_parameters` is left alone.
   */
  method InjectParameters(processor: Processor)
    modifies processor
    ensures processor.parameters.Some? ==> processor.attrs == Inject(old(processor.attrs), processor.parameters.value)
    ensures processor.parameters.None? ==> processor.attrs == old(processor.attrs)
  {
    if processor.parameters.None? {
      return;
    }
    var parameters := processor.parameters.value;
    var remaining := parameters.Keys;
    ghost var before := processor.attrs;
    while remaining != {}
      invariant remaining <= parameters.Keys
      invariant processor.attrs.Keys == before.Keys + (parameters.Keys - remaining)
      invariant forall k :: k in parameters && k !in remaining ==> processor.attrs[k] == parameters[k].current
      invariant forall k :: k in before && (k !in parameters || k in remaining) ==> processor.attrs[k] == before[k]
      decreases remaining
    {
      var k :| k in remaining;
      var param := parameters[k];
      processor.attrs := processor.attrs[k := param.current];
      remaining := remaining - {k};
    }
    assert processor.attrs == Inject(before, parameters);
  }

  /** A value `update_processed_data` publishes. */
  datatype Datum = SignalValue(value: Option<real>) | Features(table: Candles)

  class DirectionalController {
    const config: ControllerConfig
    const maxRecords: int
    const processor: Processor
    var processedData: map<string, Datum>

    /** The processor is configured for the code it was built from. */
    ghost predicate Valid()
      reads this, processor
    {
      ConfiguredFor(config.settings.processorCode, processor.attrs)
    }

    /**
     * `__init__`: an empty candle feed list becomes the single feed described by
     * the candle fields; the processor of the configured code is instantiated
     * and its parameters are set on it as attributes.
     */
    constructor (config: ControllerConfig)
      modifies config
      ensures this.config == config && maxRecords == config.settings.maxRecords
      ensures config.candlesConfig ==
        if old(config.candlesConfig) == [] then
          [CandlesConfig(config.settings.candlesConnector, config.settings.candlesTradingPair,
                         config.settings.interval, config.settings.maxRecords)]
        else old(config.candlesConfig)
      ensures fresh(processor) && processor.parameters == Some(ParametersOf(config.settings.processorCode))
      ensures processor.attrs == Inject(map[], ParametersOf(config.settings.processorCode))
      ensures processedData == map[]
      ensures Valid()
    {
      var settings := config.settings;
      if |config.candlesConfig| == 0 {
        config.candlesConfig := [CandlesConfig(settings.candlesConnector, settings.candlesTradingPair,
                                               settings.interval, settings.maxRecords)];
      }
      var p := new Processor(Some(ParametersOf(settings.processorCode)));
      InjectParameters(p);
      InjectionConfigures(settings.processorCode, map[]);
      this.config := config;
      maxRecords := settings.maxRecords;
      processor := p;
      processedData := map[];
    }

    /**
     * The publish step of `update_processed_data`: the last value of the
     * table's `signal` column and the table itself are stored. A table without
     * `signal` fails with a key error and an empty one with an index error,
     * both before anything is stored.
     */
    method Publish(candles: Candles) returns (r: Outcome<TableError>)
      requires candles.Valid()
      modifies this`processedData
      ensures "signal" !in candles.columns ==> r == Fail(KeyError("signal"))
      ensures "signal" in candles.columns && candles.rows == 0 ==> r == Fail(IndexError)
      ensures r.Pass? <==> "signal" in candles.columns && candles.rows > 0
      ensures r.Fail? ==> processedData == old(processedData)
      ensures r.Pass? ==> processedData == old(processedData)
        ["signal" := SignalValue(candles.columns["signal"][candles.rows - 1])]["features" := Features(candles)]
    {
      if "signal" !in candles.columns {
        return Fail(KeyError("signal"));
      }
      var signal := candles.columns["signal"];
      if |signal| == 0 {
        return Fail(IndexError);
      }
      processedData := processedData["signal" := SignalValue(signal[|signal| - 1])];
      processedData := processedData["features" := Features(candles)];
      r := Pass;
    }

    /**
     * `update_processed_data` on a fetched candle table: the processor writes
     * its columns into the table, then the last signal and the table are
     * published. The cycle fails when the table lacks close, high or low, when
     * the processor's MACD lookup fails, or when the table has no rows; a failed
     * cycle publishes nothing. A published signal is always -1, 0 or 1.
     */
    method UpdateProcessedData(candles: Candles, ta: Library) returns (r: Outcome<TableError>)
      requires Valid() && candles.Valid()
      modifies this`processedData, candles
      ensures Valid() && candles.Valid()
      ensures r.Fail? <==>
        || !("close" in old(candles.columns) && "high" in old(candles.columns) && "low" in old(candles.columns))
        || MacdFails(config.settings.processorCode, old(candles.columns)["close"], processor.attrs, ta)
        || candles.rows == 0
      ensures r.Fail? ==> processedData == old(processedData)
      ensures r.Pass? ==> "signal" in candles.columns && candles.rows > 0
      ensures r.Pass? ==> processedData == old(processedData)
        ["signal" := SignalValue(candles.columns["signal"][candles.rows - 1])]["features" := Features(candles)]
      ensures r.Pass? ==> processedData["signal"].value in {Some(-1.0), Some(0.0), Some(1.0)}
    {
      r := RunProcessor(config.settings.processorCode, processor, candles, ta);
      if r.Fail? {
        return;
      }
      r := Publish(candles);
    }
  }
}
