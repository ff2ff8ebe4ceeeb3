# Strategy processor: grouping, signal, backtest and performance

A model of the Java strategy processor `StrategyProcessor`, which reads daily
price rows for several securities, computes RSI and Bollinger-band indicators
per security, derives a long/short/flat signal per row, and backtests an
equal-weighted portfolio: each trading date's return is the mean signed
next-day return of the rows that take a position. It then reports the
annualised return, volatility, Sharpe ratio and maximum drawdown of the daily
return series.

The model has six modules:

- `Records` (records.dfy): the input row `StockData`, the indicator bundle
  `IndicatorValues`, the fixed parameters, and the indicator cache
  (ticker to date to bundle) with its two-level lookup.
- `StringOrder` (string_order.dfy): the lexicographic order of
  `String.compareTo`, which both the tree map of dates and the date sort use.
  It is proved to be a strict total order.
- `Grouping` (grouping.dfy): `groupDataByTicker` and `groupDataByDate`, as
  methods with loops.
  - The hash map of tickers is a Dafny `map`.
  - The per-ticker list sort is a stable insertion sort by date, `SortByDate`.
  - The tree map of dates is a sequence of `Cohort` entries in strictly
    ascending date order. Its `computeIfAbsent` is a search for the first
    entry not earlier than the date.
  - Both groupings are specified by reference functions of the input
    (`Members`, `KeysOf`). Lemmas show each grouping is a partition of
    its input.
- `Signal` (signal.dfy): `getSignal`. It is proved equal to a first-match
  reading of its four-rule table, and its dependence on RSI is stated.
- `Backtest` (backtest.dfy): `runBacktest`, as a method with nested loops.
  - It is specified by `DailyReturn`, a function of one date's records.
  - Lemmas show the daily return does not depend on record order.
  - Lemmas show rows without indicators or with a flat signal are ignored.
  - Lemmas show no position is taken exactly when every row lacks indicators
    or has a flat signal, and the return is then zero.
  - `BacktestRows` chains the date grouping and the backtest: one return per
    distinct input date, in ascending date order.
  - Lemmas show the return stays within the bound of the next-day returns.
- `Performance` (performance.dfy): `calculateAndPrintPerformance`, as a
  method with its three loops.
  - It is specified by `Mean`, `Variance` and `MaxDrawdown`.
  - Lemmas cover the variance (zero exactly for a constant series), the
    Sharpe ratio (zero exactly for a constant or zero-mean series), and the
    running peak and maximum drawdown (a running maximum and minimum,
    bounded by `-1` when no day loses more than everything).

Doubles are Dafny `real`, so arithmetic is exact. Dates and tickers are
`string`. In `runBacktest` the indicator lookup uses the date of the map
entry, not the row's own field; the model does the same, so `Position` takes
the date separately.

## Model

| member | source | states |
|---|---|---|
| Records.Lookup | src/main/java/com/example/strategy/StrategyProcessor.java:174 | The lookup finds a bundle exactly when the ticker is in the cache and the date is in that ticker's map. A found bundle is the cached one. |
| StringOrder.StrLtIrreflexive | src/main/java/com/example/strategy/StrategyProcessor.java:113 | The order that keeps the date map sorted never puts a string before itself. |
| StringOrder.StrLtAsymmetric | src/main/java/com/example/strategy/StrategyProcessor.java:113 | Under that order, two strings are never each before the other. |
| StringOrder.StrLtTransitive | src/main/java/com/example/strategy/StrategyProcessor.java:113 | Under that order, being before is transitive. |
| StringOrder.StrLtTotal | src/main/java/com/example/strategy/StrategyProcessor.java:113 | Of two distinct strings, one comes before the other, so the tree map's order is total. |
| StringOrder.StrLeTransitive | src/main/java/com/example/strategy/StrategyProcessor.java:107 | The non-strict order used by the date comparator is transitive. |
| Signal.GetSignal | src/main/java/com/example/strategy/StrategyProcessor.java:194-205 | The signal is -1, 0 or 1. It is flat when RSI is in [30, 70]. It is never short unless RSI is above 70, and never long unless RSI is below 30. |
| Signal.GetSignalIsFirstMatch | src/main/java/com/example/strategy/StrategyProcessor.java:199-204 | The signal is the one of the first of the four rules that fires, and flat when none fires. |
| Signal.EarlierRuleSubsumed | src/main/java/com/example/strategy/StrategyProcessor.java:199-202 | With lower <= mid <= upper bands, the first rule implies the second and the third implies the fourth. The signal is long exactly when the second rule fires, and short exactly when the second does not and the fourth does. |
| Grouping.InsertByDatePermutes | src/main/java/com/example/strategy/StrategyProcessor.java:107 | Inserting a record into a list by date adds exactly that record. |
| Grouping.InsertByDateSorted | src/main/java/com/example/strategy/StrategyProcessor.java:107 | Inserting into a date-sorted list keeps it sorted. |
| Grouping.InsertByDateStable | src/main/java/com/example/strategy/StrategyProcessor.java:107 | Inserting a record leaves the relative order of each date's records unchanged, apart from possibly adding the record itself. |
| Grouping.SortByDateCorrect | src/main/java/com/example/strategy/StrategyProcessor.java:107 | The date sort returns a date-ordered permutation of its input. |
| Grouping.SortByDateStable | src/main/java/com/example/strategy/StrategyProcessor.java:107 | The date sort is stable: the records of any one date keep their input order. |
| Grouping.MembersConcat | src/main/java/com/example/strategy/StrategyProcessor.java:103-105 | The records of one key in a concatenation are those of the first part followed by those of the second. |
| Grouping.MembersMembership | src/main/java/com/example/strategy/StrategyProcessor.java:103-105 | A record is among a key's members exactly when it is in the input and has that key. |
| Grouping.KeysOfMembership | src/main/java/com/example/strategy/StrategyProcessor.java:103-105 | The key of every input record is among the input's keys. |
| Grouping.AddByTicker | src/main/java/com/example/strategy/StrategyProcessor.java:104 | One computeIfAbsent-and-add step turns the groups of a prefix into the groups of the prefix extended by one record. |
| Grouping.SortGroups | src/main/java/com/example/strategy/StrategyProcessor.java:106-108 | After sorting every group in place, each group of a ticker holds exactly that ticker's records, sorted by date. |
| Grouping.GroupDataByTicker | src/main/java/com/example/strategy/StrategyProcessor.java:101-110 | The result has one key per input ticker. Each key maps to that ticker's records in date order, with same-date records in input order. |
| Grouping.TickerGroupsHoldInput | src/main/java/com/example/strategy/StrategyProcessor.java:101-110 | Together the groups hold exactly the input records, with multiplicity, so their sizes sum to the input's size. |
| Grouping.TickerGroupsSorted | src/main/java/com/example/strategy/StrategyProcessor.java:106-108 | Every group is sorted by date. |
| Grouping.InSortedMembers | src/main/java/com/example/strategy/StrategyProcessor.java:104-107 | A record is in a ticker's sorted group exactly when it is an input record of that ticker. |
| Grouping.TickerGroupsCover | src/main/java/com/example/strategy/StrategyProcessor.java:103-105 | Every input record is in the group of its own ticker. |
| Grouping.TickerGroupsFromInput | src/main/java/com/example/strategy/StrategyProcessor.java:103-105 | A group holds only input records of its own ticker. |
| Grouping.TickerGroupKeepsSameDateOrder | src/main/java/com/example/strategy/StrategyProcessor.java:107 | Within a ticker's group, records with the same date keep their input order. |
| Grouping.AddByDate | src/main/java/com/example/strategy/StrategyProcessor.java:115 | One computeIfAbsent-and-add step on the sorted date map turns the grouping of a prefix into the grouping of the prefix extended by one record. The entries stay strictly ascending, and the record is added exactly once. |
| Grouping.GroupDataByDate | src/main/java/com/example/strategy/StrategyProcessor.java:112-118 | The entries are in strictly ascending date order, with one entry per input date. Each entry holds that date's records in input order. Together the entries hold exactly the input records. |
| Grouping.DateGroupingCountsDates | src/main/java/com/example/strategy/StrategyProcessor.java:113-116 | There are exactly as many entries as there are distinct input dates. |
| Grouping.DateGroupingIsPartition | src/main/java/com/example/strategy/StrategyProcessor.java:113-116 | Every input record is in the entry of its date. An entry holds only input records of its date. No date has two entries. |
| Backtest.Position | src/main/java/com/example/strategy/StrategyProcessor.java:174-177 | A row's position is -1, 0 or 1, and it is 0 when the cache has no bundle for the row's ticker on that date. |
| Backtest.DailyReturn | src/main/java/com/example/strategy/StrategyProcessor.java:170-185 | The daily return is 0 when no position is taken. Otherwise, times the number of positions it equals the summed signed returns. |
| Backtest.TallyStep | src/main/java/com/example/strategy/StrategyProcessor.java:173-183 | One pass of the inner loop adds exactly that row's contribution to the day's running sum and count. |
| Backtest.RunBacktest | src/main/java/com/example/strategy/StrategyProcessor.java:158-191 | There is one return per date entry, in the map's ascending order, and the i-th is the daily return of the i-th entry's records. |
| Backtest.BacktestRows | src/main/java/com/example/strategy/StrategyProcessor.java:73-75 | Grouping the rows by date and then backtesting gives one return per distinct input date. The entries are in strictly ascending date order, and each return is the daily return of exactly that date's input rows. |
| Backtest.TallyOfConcat | src/main/java/com/example/strategy/StrategyProcessor.java:173-183 | The day's tally over a concatenation is the sum of the tallies of the two parts. |
| Backtest.TallyOfPermutation | src/main/java/com/example/strategy/StrategyProcessor.java:173-183 | The day's tally does not depend on the order of its rows. |
| Backtest.DailyReturnPermutation | src/main/java/com/example/strategy/StrategyProcessor.java:166-185 | A date's return is the same for any order of its records. |
| Backtest.IdleRecordIgnored | src/main/java/com/example/strategy/StrategyProcessor.java:174-182 | A row with no indicators for the date, or with a flat signal, does not change the daily return. |
| Backtest.CountBounded | src/main/java/com/example/strategy/StrategyProcessor.java:171-181 | The number of positions taken is between 0 and the number of the day's rows. |
| Backtest.NoPositionIff | src/main/java/com/example/strategy/StrategyProcessor.java:175-185 | No position is taken exactly when every row of the day has position 0, and the daily return is then 0. |
| Backtest.TotalBounded | src/main/java/com/example/strategy/StrategyProcessor.java:179-182 | When each next-day return lies in [-b, b], the summed signed returns lie within b times the number of positions. |
| Backtest.DailyReturnBounded | src/main/java/com/example/strategy/StrategyProcessor.java:185 | When each next-day return lies in [-b, b] with b >= 0, so does the daily return. |
| Performance.SumSqDev | src/main/java/com/example/strategy/StrategyProcessor.java:217-218 | The summed squared deviations are never negative. |
| Performance.Variance | src/main/java/com/example/strategy/StrategyProcessor.java:219 | The variance under the square root is never negative, so the volatility is defined. |
| Performance.Peak | src/main/java/com/example/strategy/StrategyProcessor.java:225-231 | The running peak is at least 1 and at least the current compounded value. |
| Performance.Drawdown | src/main/java/com/example/strategy/StrategyProcessor.java:232 | A drawdown from the running peak is never positive. |
| Performance.MaxDrawdown | src/main/java/com/example/strategy/StrategyProcessor.java:223-235 | The maximum drawdown is never positive. |
| Performance.SharpeRatio | src/main/java/com/example/strategy/StrategyProcessor.java:222 | The Sharpe ratio is 0 when the volatility is 0. Otherwise, times the volatility it gives the annualised return. |
| Performance.SumStep | src/main/java/com/example/strategy/StrategyProcessor.java:214 | Each pass of the sum loop adds the next return. |
| Performance.CompoundedStep | src/main/java/com/example/strategy/StrategyProcessor.java:228 | Each pass multiplies the compounded value by one plus the day's return. |
| Performance.PeakStep | src/main/java/com/example/strategy/StrategyProcessor.java:229-231 | The peak is raised only by a compounded value above it. |
| Performance.MaxDrawdownStep | src/main/java/com/example/strategy/StrategyProcessor.java:232-235 | The maximum drawdown is lowered only by a deeper drawdown, and the peak it divides by is at least 1, so the division is defined. |
| Performance.CalculatePerformance | src/main/java/com/example/strategy/StrategyProcessor.java:207-236 | An empty series reports nothing. Otherwise the report holds the mean, the population variance, the mean times 252 as annualised return, and the maximum drawdown. |
| Performance.SumSqDevZeroIff | src/main/java/com/example/strategy/StrategyProcessor.java:217-218 | The squared deviations from m are zero exactly when every return equals m. |
| Performance.VarianceZeroIff | src/main/java/com/example/strategy/StrategyProcessor.java:217-219 | The variance is zero exactly when every return equals the mean. |
| Performance.SumOfConstant | src/main/java/com/example/strategy/StrategyProcessor.java:214 | The sum of n copies of c is n times c. |
| Performance.ConstantSeries | src/main/java/com/example/strategy/StrategyProcessor.java:213-219 | A constant series has that constant as its mean and zero variance. |
| Performance.SharpeZeroIff | src/main/java/com/example/strategy/StrategyProcessor.java:219-222 | For a non-negative volatility whose square is 252 times the variance, the Sharpe ratio is 0 exactly when the series is constant or its mean is 0. |
| Performance.PeakIsRunningMaximum | src/main/java/com/example/strategy/StrategyProcessor.java:224-231 | The peak is at least every compounded value seen, and equals 1 or one of them. |
| Performance.MaxDrawdownIsMinimum | src/main/java/com/example/strategy/StrategyProcessor.java:223-235 | The maximum drawdown is at most every day's drawdown, and equals 0 or one of them. |
| Performance.RunningExtremaMonotone | src/main/java/com/example/strategy/StrategyProcessor.java:227-235 | From any day to any later day, the running peak never falls and the maximum drawdown never rises. |
| Performance.NoLossNoDrawdown | src/main/java/com/example/strategy/StrategyProcessor.java:227-235 | With no negative daily return, the peak is the current value and the maximum drawdown is 0. |
| Performance.CompoundedNonNegative | src/main/java/com/example/strategy/StrategyProcessor.java:228 | When no day loses more than everything, the compounded value stays non-negative. |
| Performance.DrawdownAtLeastTotalLoss | src/main/java/com/example/strategy/StrategyProcessor.java:227-235 | When no day loses more than everything, the maximum drawdown is at least -1. |

## Left out

- `calculateAllIndicators` (lines 119-156) is not modelled. It builds the RSI and Bollinger series with the ta4j library, which is not part of this model. The backtest takes its cache as an input, and `Lookup` models only how the cache is read.
- The window constants `BB_PERIOD`, `BB_STD_DEV` and `RSI_PERIOD` are declared but used only by that engine. `VWMA_PERIOD` is unused in the source and is not declared.
- `readCsvData` and the `StockData(CSVRecord)` constructor (lines 41-50 and 86-99) are not modelled: they are file I/O and number parsing. A parsed row is a `StockData` value, and the input is a sequence of them.
- `main` (lines 64-84) is modelled only for its grouping-by-date and backtest steps, by `BacktestRows`. Its console messages and its handling of `IOException` are left out.
- The output file of `runBacktest` (its header and one line per date, lines 163-164 and 187) is not modelled. Neither are the console messages: "No returns to analyze." and the four `printf` lines (238-241).
- CalculatePerformance: it reports the variance rather than the standard deviation. The annualised volatility and Sharpe ratio (lines 219-222) use `Math.sqrt`, which has no exact real counterpart. `SharpeRatio` therefore takes the volatility as an input, and `SharpeZeroIff` ties it to the variance by its square.
- Double-precision rounding, infinities and NaN are not modelled; arithmetic is exact. So `DailyReturnPermutation` holds for exact sums only, and `Math.pow(x, 2)` is `x * x`.
- `positionsTaken` is a Java `int`, but its overflow is not modelled. It would need more than 2^31 rows on one date.
- SortGroups: the hash map's iteration order is not modelled. Groups are sorted in an arbitrary order, and each group is sorted independently, so the result does not depend on it.
- GroupDataByDate: the tree map is a sorted sequence with a linear search rather than a balanced tree. Its iteration order and contents are modelled, but not its cost.
- StringOrder.StrLt compares characters by code point, whereas `String.compareTo` compares UTF-16 code units. The two agree for the ISO dates and ASCII tickers of the input.
- The Python scripts that prepare the input and analyse the output are outside the core and are not modelled.
