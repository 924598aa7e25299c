# EmeraldFund directional controller and signal processors, modelled in Dafny

This project models the core of the EmeraldFund deployment tooling for
Hummingbot. A *directional controller* is configured with the source code of a
*signal processor*. At start-up it instantiates the processor and sets each
tunable parameter the processor declares as an attribute of the instance. On
every update cycle it hands the processor a table of candles. The processor
adds indicator columns and a `signal` column (1 buy, -1 sell, 0 flat). The
controller then publishes the last signal and the table.

The modules:

- `Wrappers` (wrappers.dfy): `Option`, `Result` and `Outcome`.
- `Series` (series.dfy): the pandas column operations the processors use.
  - A column is a sequence of optional reals, and a missing value is `None`.
  - Comparisons involving a missing value are false, and `ne` is true.
  - It defines `shift`, element-wise arithmetic, `where`, `fillna`, masked assignment, index alignment and `rolling(w).max()`.
  - These are the table library's semantics, not processor code. Their contracts spell out, row by row, the value each operation computes.
  - The candle table is the class `Candles`, whose column map is updated in place.
- `Plugin` (plugin.dfy): what a processor is to its host.
  - Python numbers (`int` or `float`, with the `+` of the two kinds).
  - Parameter descriptors, and parameter injection into the processor's attributes.
  - The indicator library, given as functions.
- `Smugplug` (smugplug.dfy): the baseline processor.
  - Its parameters.
  - Its buy and sell rules, which combine three EMAs, ATR against the previous close, and MACD momentum.
  - `process_candles`, as a method that writes the table's columns.
- `SmugplugEmerald` (smugplug_emerald.dfy): the modified processor.
  - Derived (cumulative) periods.
  - An ATR volatility gate: the current ATR must exceed a multiple of the rolling maximum ATR of an earlier window.
  - A look-back on the MACD histogram.
  - `decimate`, which keeps only the first row of every run of a condition, so a signal never repeats on the next row.
- `CleanValues` (clean_values.dfy): `clean_consecutive_values`, which zeroes values that repeat within `steps` rows.
- `CodeReplace` (code_replace.dfy): rewriting the body of every `get_parameters` method reachable by the syntax-tree visitor to `return <obj>`.
  - It works over an abstract syntax tree with parsing and unparsing as parameters.
- `Controller` (controller.dfy): the controller itself.
  - The order-type validator and the candle-feed validators.
  - The triple-barrier settings.
  - Construction: the default candle feed, processor instantiation and parameter injection.
  - The update cycle.

## Model

| member | source | states |
|---|---|---|
| Plugin.Add | pages/config/emeraldfund/examples/directional/smugplug_emerald.py:43-49 | Python `+` on parameter values: the numeric values add, and the sum is an `int` exactly when both operands are |
| Plugin.Inject | bots/controllers/directional_trading/directional_emeraldfund.py:147-151 | after setting every parameter's `current` as an attribute, the attributes are the old ones plus the parameter names; parameters take their current value and every other attribute is kept |
| Plugin.Processor.constructor | bots/controllers/directional_trading/directional_emeraldfund.py:146 | a fresh processor instance has its declared parameters and no attributes set |
| Plugin.LookupMacd | pages/config/emeraldfund/examples/directional/smugplug.py:67-81 | looking the three MACD columns up in the library's result succeeds exactly when there is a result and each period passed is the integer the library named its columns after, and then gives that result; a missing result is the TypeError of indexing None and any other result a KeyError |
| Plugin.WriteMacd | pages/config/emeraldfund/examples/directional/smugplug.py:73-81 | the MACD line, signal and histogram columns are written, aligned to the table, and nothing else changes |
| Series.RollingMax | pages/config/emeraldfund/examples/directional/smugplug_emerald.py:56-59 | `rolling(w).max()` has one entry per row (its value at each row is stated by Series.RollingMaxAt) |
| Series.RollingMaxAt | pages/config/emeraldfund/examples/directional/smugplug_emerald.py:56-59 | `rolling(w).max()` at row i is defined exactly when the w rows ending at i exist and are all present; it is then one of them and at least every one of them |
| Series.Candles.SetColumn | pages/config/emeraldfund/examples/directional/smugplug.py:57 | assigning a column of the table's length replaces or adds that column and leaves every other column as it was |
| Smugplug.GetParameters | pages/config/emeraldfund/examples/directional/smugplug.py:36-46 | the eight declared parameters, each with min <= current <= max |
| Smugplug.InjectedParametersConfigure | pages/config/emeraldfund/examples/directional/smugplug.py:36-46 | injecting the declared parameters sets every attribute `process_candles` reads, to its declared current value |
| Smugplug.BuyCondition | pages/config/emeraldfund/examples/directional/smugplug.py:90-103 | the vectorised buy condition has one entry per row (its value at each row is stated by Smugplug.ConditionsAt) |
| Smugplug.SellCondition | pages/config/emeraldfund/examples/directional/smugplug.py:110-123 | the vectorised sell condition has one entry per row (its value at each row is stated by Smugplug.ConditionsAt) |
| Smugplug.ConditionsAt | pages/config/emeraldfund/examples/directional/smugplug.py:90-123 | the vectorised buy (sell) condition holds at a row exactly when its seven conjuncts hold there: EMA stack order, close against the short EMA, close against the previous close minus (plus) m ATRs, MACD against its signal line, histogram sign, and histogram growth (decline) since the previous row |
| Smugplug.BuySellExclusive | pages/config/emeraldfund/examples/directional/smugplug.py:90-123 | no row satisfies both the buy and the sell rule |
| Smugplug.SignalColumn | pages/config/emeraldfund/examples/directional/smugplug.py:84-127 | the signal column has one entry per row (its values are stated by Smugplug.SignalMeaning) |
| Smugplug.SignalMeaning | pages/config/emeraldfund/examples/directional/smugplug.py:84-127 | a row's signal is 1 exactly when its buy rule holds, -1 exactly when its sell rule holds, and 0 exactly when neither holds; the sell write never overwrites a buy |
| Smugplug.SignalValues | pages/config/emeraldfund/examples/directional/smugplug.py:84-127 | every signal is -1, 0 or 1 |
| Smugplug.FirstRowFlat | pages/config/emeraldfund/examples/directional/smugplug.py:94-102 | the first row never signals, since both rules compare with a previous row that is missing |
| Smugplug.SignalIsLocal | pages/config/emeraldfund/examples/directional/smugplug.py:90-127 | a row's signal depends only on the indicator values of that row and the row before |
| Smugplug.SignalsRepeat | pages/config/emeraldfund/examples/directional/smugplug.py:106-107 | without decimation a buy signal repeats on consecutive rows (a three-row table giving 0, 1, 1) |
| Smugplug.ProcessCandles | pages/config/emeraldfund/examples/directional/smugplug.py:48-129 | fails exactly when close, high or low is missing or the MACD lookup fails. A missing column gives the column error and leaves the table untouched. A failed lookup gives its error after the EMA and ATR columns have been written. Otherwise it writes only the nine output columns, the indicators are those of the library on the input, `prev_signal` is all zeros and `signal` is the buy/sell signal column |
| Smugplug.IndicatorsFor | pages/config/emeraldfund/examples/directional/smugplug.py:56-81 | the indicators the processor derives span the table's rows and keep its close column |
| Smugplug.TrendWritten | pages/config/emeraldfund/examples/directional/smugplug.py:56-64 | writing the EMA and ATR columns overwrites only those four columns and keeps close |
| Smugplug.WriteTrend | pages/config/emeraldfund/examples/directional/smugplug.py:56-64 | the three EMA columns and the ATR column are written, in that order, from the table's close, high and low |
| Smugplug.WriteMomentumAndSignal | pages/config/emeraldfund/examples/directional/smugplug.py:73-127 | after the trend columns, writing the MACD columns and the signal leaves exactly the nine output columns overwritten, the table's indicators in place, `prev_signal` zero and `signal` the signal column |
| Smugplug.IndicatorsAfterWrites | pages/config/emeraldfund/examples/directional/smugplug.py:56-81 | the trend writes followed by the MACD writes overwrite exactly the seven indicator outputs and leave the table's indicators in it |
| Smugplug.WriteSignal | pages/config/emeraldfund/examples/directional/smugplug.py:83-127 | `signal` becomes the signal column and `prev_signal` the shifted, filled zero column; the indicator columns are untouched |
| SmugplugEmerald.GetParameters | pages/config/emeraldfund/examples/directional/smugplug_emerald.py:11-29 | the eleven declared parameters, each with min <= current <= max and min at least 0.5 |
| SmugplugEmerald.InjectedParametersConfigure | pages/config/emeraldfund/examples/directional/smugplug_emerald.py:11-29 | injecting the declared parameters sets every attribute `process_candles` reads, with integer window and shift lengths |
| SmugplugEmerald.DerivedPeriods | pages/config/emeraldfund/examples/directional/smugplug_emerald.py:42-49 | MACD fast, MACD signal and the short EMA period are the parameters themselves; the slow MACD period is fast plus slow, the medium EMA period medium plus short and the long EMA period long plus medium plus short; the slow period is an integer exactly when both of its parts are |
| SmugplugEmerald.PeriodsOrdered | pages/config/emeraldfund/examples/directional/smugplug_emerald.py:42-49 | with every parameter at or above its declared minimum, the cumulative periods satisfy short < medium < long and MACD fast < slow; with integer inputs the derived periods are integers |
| SmugplugEmerald.DefaultPeriods | pages/config/emeraldfund/examples/directional/smugplug_emerald.py:42-49 | with the declared defaults the periods used are MACD 1/6/41 and EMA 31/49/92 |
| SmugplugEmerald.Decimate | pages/config/emeraldfund/examples/directional/smugplug_emerald.py:31-39 | a row stays true exactly when it is true and the previous row (false before the first row) is not |
| SmugplugEmerald.DecimateKeepsRunStarts | pages/config/emeraldfund/examples/directional/smugplug_emerald.py:38 | decimation keeps the first row of every maximal run of true rows and clears the rest of the run, and never sets a row that was false |
| SmugplugEmerald.DecimateNoAdjacent | pages/config/emeraldfund/examples/directional/smugplug_emerald.py:38 | two consecutive rows are never both true after decimation |
| SmugplugEmerald.DecimateIdempotent | pages/config/emeraldfund/examples/directional/smugplug_emerald.py:38 | decimating twice is decimating once |
| SmugplugEmerald.DecimateCountsRuns | pages/config/emeraldfund/examples/directional/smugplug_emerald.py:31-39 | the number of rows kept equals the number of runs in the input |
| SmugplugEmerald.Threshold | pages/config/emeraldfund/examples/directional/smugplug_emerald.py:56-62 | the ATR threshold has one entry per row (its value at each row is stated by SmugplugEmerald.ThresholdAt) |
| SmugplugEmerald.ThresholdFor | pages/config/emeraldfund/examples/directional/smugplug_emerald.py:56-62 | the threshold under the processor's own lookback, shift and multiplier has one entry per row of the ATR column |
| SmugplugEmerald.ThresholdAt | pages/config/emeraldfund/examples/directional/smugplug_emerald.py:56-62 | the ATR threshold at row i is defined exactly when the lookback window ending `compare` rows before i lies in the table and is complete; it is then the multiplier times one ATR of that window and, for a non-negative multiplier, at least the multiplier times each of them |
| SmugplugEmerald.VolatilityOk | pages/config/emeraldfund/examples/directional/smugplug_emerald.py:63 | the volatility gate has one entry per row (its value at each row is stated by SmugplugEmerald.VolatilityOkAt) |
| SmugplugEmerald.VolatilityOkAt | pages/config/emeraldfund/examples/directional/smugplug_emerald.py:56-63 | the volatility gate holds only where the threshold is defined; for a non-negative multiplier it holds exactly when the current ATR exceeds the multiplier times every ATR of the earlier window |
| SmugplugEmerald.BuyCondition | pages/config/emeraldfund/examples/directional/smugplug_emerald.py:71-82 | the vectorised buy condition has one entry per row (its value at each row is stated by SmugplugEmerald.ConditionsAt) |
| SmugplugEmerald.SellCondition | pages/config/emeraldfund/examples/directional/smugplug_emerald.py:85-96 | the vectorised sell condition has one entry per row (its value at each row is stated by SmugplugEmerald.ConditionsAt) |
| SmugplugEmerald.ConditionsAt | pages/config/emeraldfund/examples/directional/smugplug_emerald.py:71-96 | the buy (sell) condition holds at a row exactly when its seven conjuncts hold, with the histogram compared `macd_hist_lookback` rows back; the two never hold together |
| SmugplugEmerald.SignalColumn | pages/config/emeraldfund/examples/directional/smugplug_emerald.py:70-98 | the decimated signal column has one entry per row (its values are stated by SmugplugEmerald.SignalMeaning) |
| SmugplugEmerald.SignalMeaning | pages/config/emeraldfund/examples/directional/smugplug_emerald.py:70-98 | a row's signal is 1 exactly when a run of buy rows starts there, -1 exactly when a run of sell rows starts there, 0 otherwise |
| SmugplugEmerald.SignalValues | pages/config/emeraldfund/examples/directional/smugplug_emerald.py:70-98 | every signal is -1, 0 or 1 |
| SmugplugEmerald.NoRepeatedSignal | pages/config/emeraldfund/examples/directional/smugplug_emerald.py:83-98 | a buy (sell) signal is never followed by another on the next row |
| SmugplugEmerald.WarmUpFlat | pages/config/emeraldfund/examples/directional/smugplug_emerald.py:56-98 | rows before the histogram look-back or before the first complete threshold window never signal |
| SmugplugEmerald.ProcessCandles | pages/config/emeraldfund/examples/directional/smugplug_emerald.py:41-107 | fails exactly when close, high or low is missing or the MACD lookup fails. Without close it fails with a key error on close and changes nothing. Without high or low it fails with a key error after writing only the three EMA columns. A failed MACD lookup gives its error after the EMA, ATR and threshold columns have been written. Otherwise it writes only its eleven output columns, with the library's indicators, the ATR threshold, the decimated signal and the two copies |
| SmugplugEmerald.IndicatorsFor | pages/config/emeraldfund/examples/directional/smugplug_emerald.py:50-69 | the indicators the processor derives, under its derived periods, span the table's rows and keep its close column |
| SmugplugEmerald.VolatilityWritten | pages/config/emeraldfund/examples/directional/smugplug_emerald.py:50-62 | writing the EMA, ATR and threshold columns overwrites only those five columns and keeps close |
| SmugplugEmerald.WriteEmas | pages/config/emeraldfund/examples/directional/smugplug_emerald.py:50-52 | the three EMA columns are written and nothing else changes |
| SmugplugEmerald.WriteRest | pages/config/emeraldfund/examples/directional/smugplug_emerald.py:64-106 | after the volatility columns, the remaining writes overwrite only the three MACD columns, `signal` and the two copies, so that the eleven output columns are exactly those overwritten, and leave the indicator, threshold, signal and copy columns as specified |
| SmugplugEmerald.WriteVolatility | pages/config/emeraldfund/examples/directional/smugplug_emerald.py:53-62 | the ATR column is written and then the threshold column derived from it; nothing else changes |
| SmugplugEmerald.IndicatorsAfterWrites | pages/config/emeraldfund/examples/directional/smugplug_emerald.py:50-69 | the EMA, ATR and threshold writes followed by the MACD writes overwrite exactly those eight columns and leave the table's indicators and threshold in it |
| SmugplugEmerald.WriteSignalAndCharts | pages/config/emeraldfund/examples/directional/smugplug_emerald.py:70-106 | the signal and then the two copies are written, overwriting only those three columns and keeping the indicators and the threshold |
| SmugplugEmerald.WriteSignal | pages/config/emeraldfund/examples/directional/smugplug_emerald.py:70-98 | `signal` becomes the decimated signal column of the written indicators and threshold; nothing else changes |
| SmugplugEmerald.WriteSeparateColumns | pages/config/emeraldfund/examples/directional/smugplug_emerald.py:105-106 | the two separate-panel columns copy the ATR and its threshold; nothing else changes |
| CleanValues.CleanPass | pages/config/emeraldfund/utils.py:9 | one pass keeps the column's length (its value at each row is stated by CleanValues.CleanPassAt) |
| CleanValues.CleanPassAt | pages/config/emeraldfund/utils.py:9 | one pass zeroes a row exactly when its value is present and equal to the value k rows above; every other row is kept |
| CleanValues.CleanPassStep | pages/config/emeraldfund/utils.py:8-9 | a pass only zeroes values, and the pass at distance k extends "no repeat within k - 1 rows" to "within k rows" |
| CleanValues.CleanedProperties | pages/config/emeraldfund/utils.py:7-10 | after n passes the column keeps its length and first row, every value is the input's or 0, and no value other than 0 or a missing one repeats within n rows |
| CleanValues.CleanedFixesClean | pages/config/emeraldfund/utils.py:7-10 | a column with no present value repeating within n rows is returned unchanged |
| CleanValues.DefaultStep | pages/config/emeraldfund/utils.py:7-9 | with the default `steps=1`, a value becomes 0 exactly when it is present and equal to the value in the row above |
| CleanValues.CleanConsecutiveValues | pages/config/emeraldfund/utils.py:7-10 | the loop runs passes 1 .. steps (none for steps <= 0, which returns the input) and its result has the properties above |
| CodeReplace.NewBody | pages/config/emeraldfund/code_replace.py:10 | the new body is the single statement `return <obj>` and holds no `get_parameters` definition |
| CodeReplace.Transform | pages/config/emeraldfund/code_replace.py:13-18 | the visitor keeps each statement's kind, name and block lengths; a function definition named `get_parameters` gets the new body, any other function definition is returned as it is, and returns and simple statements are unchanged |
| CodeReplace.TransformBlock | pages/config/emeraldfund/code_replace.py:13-21 | the visitor on a statement list transforms each statement separately and keeps the list's length |
| CodeReplace.TransformDone | pages/config/emeraldfund/code_replace.py:13-21 | after the visit every function definition the visitor reaches that is named `get_parameters` has the new body |
| CodeReplace.TransformBlockDone | pages/config/emeraldfund/code_replace.py:13-21 | the same for a statement list |
| CodeReplace.TransformTwice | pages/config/emeraldfund/code_replace.py:13-21 | replacing with one body and then another is replacing with the second; in particular the rewrite is idempotent |
| CodeReplace.TransformBlockTwice | pages/config/emeraldfund/code_replace.py:13-21 | the same for a statement list |
| CodeReplace.TransformUnique | pages/config/emeraldfund/code_replace.py:13-21 | the visit's result is the only tree with the input's shape in which every reached `get_parameters` has the new body: nothing else is changed |
| CodeReplace.TransformBlockUnique | pages/config/emeraldfund/code_replace.py:13-21 | the same for a statement list |
| CodeReplace.NoTargetUnchanged | pages/config/emeraldfund/code_replace.py:14-18 | a statement with no reachable `get_parameters` is returned unchanged |
| CodeReplace.NoTargetBlockUnchanged | pages/config/emeraldfund/code_replace.py:14-18 | the same for a statement list |
| CodeReplace.WhereTheVisitorReaches | pages/config/emeraldfund/code_replace.py:14-18 | a `get_parameters` nested in another function is not rewritten, since `visit_FunctionDef` does not descend; one inside a class, an async function or a compound statement is |
| CodeReplace.CodeReplace | pages/config/emeraldfund/code_replace.py:5-28 | fails exactly when the code does not parse; otherwise it is the unparsed tree with every reached `get_parameters` body replaced by `return obj` |
| CodeReplace.CodeReplaceNoTarget | pages/config/emeraldfund/code_replace.py:5-28 | code without a reachable `get_parameters` comes back as its own re-rendering |
| CodeReplace.CodeReplaceLastWins | pages/config/emeraldfund/code_replace.py:5-28 | when rendering and parsing round-trip, replacing twice equals replacing once with the second object |
| Controller.Upper | bots/controllers/directional_trading/directional_emeraldfund.py:72-73 | upper-casing maps every character by `UpperChar` and keeps the length |
| Controller.NameAndCodeInjective | bots/controllers/directional_trading/directional_emeraldfund.py:72-76 | order types are identified by their name and by their value |
| Controller.FromName | bots/controllers/directional_trading/directional_emeraldfund.py:72-73 | name lookup finds the member with exactly that name, and finds none when no member has it |
| Controller.FromCode | bots/controllers/directional_trading/directional_emeraldfund.py:74-78 | value lookup finds the member with exactly that value, and finds none when no member has it |
| Controller.ValidateOrderType | bots/controllers/directional_trading/directional_emeraldfund.py:65-81 | every rejection is the invalid-order-type error carrying the rejected value |
| Controller.ValidateOrderTypeAccepts | bots/controllers/directional_trading/directional_emeraldfund.py:65-81 | an order type passes unchanged and None gives MARKET; a string is accepted exactly when its upper case is a member name, an integer exactly when it is a member value (1..4), True gives MARKET and False is rejected; any other value is rejected |
| Controller.CaseInsensitive | bots/controllers/directional_trading/directional_emeraldfund.py:71-73 | strings with the same upper case validate to the same result |
| Controller.MembersRoundTrip | bots/controllers/directional_trading/directional_emeraldfund.py:65-81 | every member is recovered from its name, from its value and from itself |
| Controller.ValidateOrderTypeIdempotent | bots/controllers/directional_trading/directional_emeraldfund.py:67-68 | validating an accepted result again gives it back |
| Controller.OrderTypeExamples | bots/controllers/directional_trading/directional_emeraldfund.py:57-81 | the default "MARKET", "limit_maker" and "lımıt" are accepted; the string "1" and the integer 0 are rejected |
| Controller.DefaultTo | bots/controllers/directional_trading/directional_emeraldfund.py:96-106 | a non-empty value is kept; a missing or empty one becomes the named validated field, present exactly when that field is |
| Controller.SetCandlesConnector | bots/controllers/directional_trading/directional_emeraldfund.py:96-100 | a non-empty candle connector is kept; a missing or empty one becomes the connector name, or stays missing when that is missing |
| Controller.SetCandlesTradingPair | bots/controllers/directional_trading/directional_emeraldfund.py:102-106 | the same defaulting for the candle trading pair from the traded pair |
| Controller.CandleDefaultsIdempotent | bots/controllers/directional_trading/directional_emeraldfund.py:96-106 | applying either validator to its own result changes nothing |
| Controller.TripleBarrier | bots/controllers/directional_trading/directional_emeraldfund.py:83-94 | stop-loss and time-limit exits are market orders; every other barrier field is the configured one |
| Controller.ControllerConfig.constructor | bots/controllers/directional_trading/directional_emeraldfund.py:19-63 | a configuration holds the given settings and candle feeds |
| Controller.ParametersOf | bots/controllers/directional_trading/directional_emeraldfund.py:140-148 | the instantiated processor declares exactly its own parameter names, each within its bounds |
| Controller.InjectionConfigures | bots/controllers/directional_trading/directional_emeraldfund.py:146-151 | injecting either example processor's own parameters leaves it configured for its `process_candles` |
| Controller.InjectParameters | bots/controllers/directional_trading/directional_emeraldfund.py:147-151 | a processor with `get_parameters` gets every parameter's current value as the attribute of that name, and keeps its other attributes; one without is unchanged |
| Controller.DirectionalController.constructor | bots/controllers/directional_trading/directional_emeraldfund.py:127-152 | an empty candle feed list becomes the one feed built from the candle fields (a non-empty one is kept); the processor is fresh, has the configured code's parameters injected and is configured; nothing is published yet |
| Controller.DirectionalController.Publish | bots/controllers/directional_trading/directional_emeraldfund.py:162-164 | a table without `signal` gives a key error and an empty one an index error, publishing nothing; otherwise the last signal and the table are published and other entries are kept |
| Controller.RunProcessor | bots/controllers/directional_trading/directional_emeraldfund.py:161 | the configured processor fails exactly when close, high or low is missing or its MACD lookup fails; on success the last signal it wrote is -1, 0 or 1 |
| Controller.RunSmugplug | bots/controllers/directional_trading/directional_emeraldfund.py:161 | the same for the baseline processor |
| Controller.RunSmugplugEmerald | bots/controllers/directional_trading/directional_emeraldfund.py:161 | the same for the Smugplug Emerald processor |
| Controller.DirectionalController.UpdateProcessedData | bots/controllers/directional_trading/directional_emeraldfund.py:154-164 | the cycle fails, publishing nothing, exactly when the table lacks close, high or low, the processor's MACD lookup fails, or the table has no rows; otherwise it publishes the last signal the processor wrote and the table, and the published signal is -1, 0 or 1 |

## Left out

- Executing the processor source (`exec`, then instantiating `SignalProcessor`) is modelled only for the two example processors. A `ProcessorCode` value selects which one runs. Arbitrary Python code is not modelled.
- The numerics of `ta.ema`, `ta.atr` and `ta.macd` are not modelled. A processor receives them as functions (`Plugin.Library`). Their results are aligned to the table's index, as pandas column assignment does.
- When `ta.macd` has no result (a table shorter than its periods, among other cases) is part of those numerics. The model lets the library function return no result and carries the resulting error. The names of its result columns are modelled by the integer periods the result reports.
- Fetching candles from the market data provider is I/O. The table is a parameter of the update cycle. The coroutine nature of `update_processed_data` is not modelled.
- `prepare_install` (pip installation) and the configuration prompts are left out. They do not affect any value the controller computes.
- Floating point is modelled as exact reals, so rounding in indicator arithmetic and the multiplier product is not captured.
- `str.upper` is modelled only as far as membership among the order type names can tell: ASCII letters plus the dotless i and long s, which upper-case to ASCII letters. Characters whose upper case has several characters (such as ß) cannot form a member name either way.
- Only the order type enumeration's members (MARKET 1, LIMIT 2, LIMIT_MAKER 3, AMM_SWAP 4) are modelled. The enumeration is hummingbot's and is not part of this model.
- `astor` rendering and `yapf` formatting are the `unparse` parameter of `CodeReplace.CodeReplace`, and `ast.parse` is the `parse` parameter. Their text formats, and whether `return <obj>` renders and parses back to the same constant, are not modelled. Expressions other than the constant `return` are opaque text.
- The visitor is modelled on values. That `node.body = new_body` mutates the parsed tree in place, and that every rewritten method shares one `new_body` list object, are not modelled. Neither is visible in the rendered result.
- The statement kinds are simplified. Every compound statement other than a function or class definition (if, for, while, with, try, match) is a `Compound` with its blocks. Decorators and arguments of definitions are not modelled.
- `decimate` computes a run numbering and a grouped first-of-run mask (smugplug_emerald.py:32-37) and then discards it. Only the assignment the function returns (line 38) is modelled.
- The initial contents of the controller's `processed_data`, which the base class sets up, are not modelled. The constructor starts from an empty map, and publishing updates two keys of whatever map is there.
- Smugplug.ProcessCandles: requires the processor's parameter attributes to be set. Without them Python would raise an `AttributeError` while computing indicators, and that path is not modelled. The controller's constructor always sets them.
- SmugplugEmerald.ProcessCandles: requires the window and shift attributes to be integers, the rolling window to be at least 1 and the shifts to be non-negative. Other values make pandas raise or behave differently, and those paths are not modelled. The declared parameters and their bounds always satisfy this.
- Smugplug.ProcessCandles: the missing-column error is the `ValueError` the source raises, carried as `MissingColumns` with the required column names. Its message text is not modelled.
- Controller.DirectionalController.UpdateProcessedData: an exception raised inside the processor after it has already written some columns leaves those columns in the caller's table. Both processors write the EMA and ATR columns before the MACD lookup, and the Smugplug Emerald processor writes the EMA columns before it reads high and low. This is stated by the two ProcessCandles methods, not repeated here.
- Smugplug's `prev_signal` is derived from the signal column before any buy or sell is written, so it is always 0. The model states this as the source computes it.
