# coinalerts: the price-deviation core, in Dafny

coinalerts fetches the 24-hour ticker of a cryptocurrency pair from the Gemini
exchange. It decides whether the current price has moved more than one sample
standard deviation away from the mean of the recent price changes. Then it
prints an alert record. This project models the decision logic of
`alerts/alerts.py` and proves properties of it:

- `cast_list` and `cast_list_float`: element-wise conversion, with Python's
  `float(...)` failing on values it cannot convert.
- `symbols_exists`: ticker symbol validation. A non-string is refused, a
  symbol with a digit is refused, and otherwise the symbol is looked up in
  the exchange's list of supported symbols.
- `calculate_mean` and `calculate_stdev`: `statistics.mean` and the sample
  (n - 1) variance behind `statistics.stdev`.
- `calc_percent_change`: the three-way percent rule.
- `price_deviation`: the deviation flag and the rounded figures reported
  with it.

Files:

- `builtins.dfy` (module `Builtins`): the Python built-ins the core uses, on
  exact values. These are the objects a caller can pass (`PyValue`),
  `float(...)`, `abs`, `round(x, 2)`, `str.isdigit`, `any` and `list.count`.
- `statistics.dfy` (module `Statistics`): sum, mean, sum of squared deviations,
  sample variance, and the lemma that comparing non-negative numbers is the
  same as comparing their squares.
- `alerts.dfy` (module `Alerts`): the functions of `alerts/alerts.py`.
- `alerts_tests.dfy` (module `AlertsTests`): the values checked by
  `tests/test_alerts.py` and a worked example, as lemmas.

Prices are Dafny `real`s. The model never takes a square root. The source
flags a deviation when `change > stdev`. Both sides are non-negative, so the
model flags when `change² > variance`. `Alerts.DeviatedIffBeyondStdev` proves
the two tests agree for every `sd` with `sd >= 0` and `sd * sd == variance`.

Exceptions are values of `Alerts.Error`, returned in a `Result`:

- `SystemExit(message)` carries the exact messages of `symbols_exists`.
- `NotNumeric(origin)` is whatever `float(...)` raises: `ValueError`,
  `TypeError`, or `OverflowError` for an int too large for a double. The
  origin says which value failed: a day change at a given index, or the
  current price.
- `StatisticsError` is what `statistics.stdev` raises for a series of fewer
  than two points.

Failures come out in the order the source meets them. The day changes are
converted first, then the current price. The standard deviation is computed
before the mean.

Three behaviours of the code are worth stating outright:

- The percent change divides by `|average|`, not by `average`. The code
  takes `abs((current - average) / average)` (alerts/alerts.py:140).
- Equal values give 100.0 even when both are zero. The equality test
  (alerts/alerts.py:137) comes before the division, and only a division by
  a zero average falls to the `ZeroDivisionError` handler that returns 0
  (alerts/alerts.py:141-142).
- No exception of the program's own is raised. A short series raises
  Python's `StatisticsError` and an unconvertible value raises Python's
  `ValueError`, `TypeError` or `OverflowError`.

## Model

| member | source | states |
|---|---|---|
| `Builtins.ToFloat` | alerts/alerts.py:44 | `float(v)`: text goes to the string parser; an int converts exactly when its magnitude is below 2^1024 - 2^970 and raises otherwise; a float converts to itself; a list or None raises |
| `Builtins.Abs` | alerts/alerts.py:140 | `abs(x)` is never negative and is `x` or `-x` |
| `Builtins.IsDigit` | alerts/alerts.py:93 | a character is a digit exactly when it is one of `0123456789` |
| `Builtins.Any` | alerts/alerts.py:93 | `any(list)` is true exactly when some element of the list is true |
| `Builtins.Count` | alerts/alerts.py:100 | `list.count(x)` is the multiplicity of `x`, so `count(x) > 0` exactly when `x` is in the list |
| `Builtins.RoundHalfEven` | alerts/alerts.py:162-168 | Python's `round` to an integer is within 1/2 of its argument, and an exact tie goes to the even integer |
| `Builtins.Round2` | alerts/alerts.py:162-168 | `round(x, 2)` is a multiple of 1/100 within 0.005 of `x`, and an exact tie goes to the even multiple |
| `Builtins.Round2Nearest` | alerts/alerts.py:162-168 | no multiple of 1/100 is closer to `x` than `round(x, 2)` |
| `Builtins.Round2Idempotent` | alerts/alerts.py:162-168 | rounding a rounded figure again changes nothing |
| `Statistics.Mean` | alerts/alerts.py:126 | `statistics.mean` of a non-empty series: mean × n equals the sum |
| `Statistics.SumSqDev` | alerts/alerts.py:103-113 | the sum of squared deviations behind `stdev` is never negative |
| `Statistics.SampleVariance` | alerts/alerts.py:103-113 | the sample variance (divisor n - 1, defined for n >= 2) is never negative, so the standard deviation exists and is >= 0 |
| `Statistics.IsSampleStdev` | alerts/alerts.py:113 | what `statistics.stdev` returns: a number >= 0 whose square is the sample variance |
| `Statistics.SampleStdevUnique` | alerts/alerts.py:113 | at most one number is the sample standard deviation of a series, so `IsSampleStdev` determines `stdev`'s result |
| `Statistics.VarianceZero` | alerts/alerts.py:103-113 | the sample variance is zero exactly when every point of the series is the same |
| `Statistics.MeanBounds` | alerts/alerts.py:116-126 | the mean lies between any lower and upper bound of the series |
| `Statistics.SquareMonotone` | alerts/alerts.py:164 | for non-negative `a`, `b`: `a > b` exactly when `a² > b²`, which is why the flag can compare squares |
| `Alerts.CastList` | alerts/alerts.py:18-30 | `cast_list(func, data)` has the length of `data`, and element i is `func(data[i])` |
| `Alerts.Gather` | alerts/alerts.py:30 | forcing a mapped list of conversions gives every value when all succeed; otherwise it gives the position of the first failure, and everything before it succeeded |
| `Alerts.CastListFloat` | alerts/alerts.py:33-44 | `cast_list_float` succeeds exactly when `float` accepts every element, and then element i is `float(data[i])`; otherwise it reports the first element `float` refuses |
| `Alerts.SymbolsExists` | alerts/alerts.py:75-100 | a non-string symbol exits with "Ticker symbol provided is not a string"; a string with a digit exits with "Ticker symbol provided should not have numbers in it"; any other string is found exactly when it is in the supported list |
| `Alerts.RejectionIgnoresSymbolList` | alerts/alerts.py:83-100 | a refused symbol is refused whatever the supported list holds: both checks come before the lookup |
| `Alerts.CalculateMean` | alerts/alerts.py:116-126 | `calculate_mean` raises on an empty series; otherwise mean × n equals the sum |
| `Alerts.CalculateVariance` | alerts/alerts.py:103-113 | `calculate_stdev` raises for fewer than two points; otherwise the variance (stdev squared) is >= 0 and equals the squared deviations from the mean over n - 1 |
| `Alerts.PercentChange` | alerts/alerts.py:129-142 | equal values give 100.0 (also when both are 0); a zero average gives 0; otherwise percent × \|average\| = \|current − average\| × 100; the result is never negative |
| `Alerts.PercentChangeZero` | alerts/alerts.py:137-142 | the percent change is 0 exactly when the average is 0 and the current value is not |
| `Alerts.PercentChangeHundredAtZero` | alerts/alerts.py:137-140 | a current value of 0 reports the same 100.0 as a current value equal to a non-zero average |
| `Alerts.Evaluate` | alerts/alerts.py:159-168 | fails with `StatisticsError` exactly when the series has fewer than two points; otherwise the flag is (current − mean)² > sample variance, and the average, change and percent are the rounded mean, \|current − mean\| and percent change |
| `Alerts.PriceDeviation` | alerts/alerts.py:145-168 | reports the first unconvertible day change, otherwise an unconvertible current price, otherwise a series that is too short; succeeds exactly when none of these happen, with the result of Evaluate on the converted values |
| `Alerts.DeviatedIffBeyondStdev` | alerts/alerts.py:159-166 | for the sample standard deviation `sd`, the flag is set exactly when \|current − mean\| > `sd`, the source's own test |
| `Alerts.FiguresIgnoreSpread` | alerts/alerts.py:161-168 | the average, change and percent depend only on the current price and the mean; only the flag depends on the spread |
| `Alerts.DeviationMonotone` | alerts/alerts.py:164 | a price at least as far from the mean as a deviating price also deviates |
| `Alerts.AtMeanNoDeviation` | alerts/alerts.py:159-168 | a price equal to the mean never deviates, with change 0 and percent 100 |
| `Alerts.ConstantSeriesDeviation` | alerts/alerts.py:159-166 | over a constant series, every price other than that constant deviates |
| `AlertsTests.MeanOfTestData` | tests/test_alerts.py:12-13 | mean([1, 2, 3, 4, 5]) == 3 |
| `AlertsTests.MeanOfTestData2` | tests/test_alerts.py:14 | mean([1.23, 3.45, 6.54, 10.2]) == 5.355 |
| `AlertsTests.VarianceOfTestData` | tests/test_alerts.py:16-17 | the sample variance of [1, 2, 3, 4, 5] is 5/2 |
| `AlertsTests.VarianceOfTestData2` | tests/test_alerts.py:18 | the sample variance of [1.23, 3.45, 6.54, 10.2] is 15.1743 |
| `AlertsTests.StdevOfTestData` | tests/test_alerts.py:17 | the standard deviation of [1, 2, 3, 4, 5] lies strictly between 1.5805 and 1.5815, so it rounds to 1.581 |
| `AlertsTests.StdevOfTestData2` | tests/test_alerts.py:18 | the standard deviation of [1.23, 3.45, 6.54, 10.2] lies strictly between 3.8945 and 3.8955, so it rounds to 3.895 |
| `AlertsTests.SymbolRejections` | tests/test_alerts.py:24-38 | "us2", 123 and [123] are refused with the expected exit messages, whatever list the exchange returns |
| `AlertsTests.SymbolLookups` | tests/test_alerts.py:20-22 | "btcusd" is found and "usd" is not, given an exchange list that holds the first and not the second |
| `AlertsTests.CastListFloatOfNumbers` | tests/test_alerts.py:48-50 | `cast_list_float` of the integer and float test lists gives the expected floats |
| `AlertsTests.FirstUnconvertibleChangeReported` | alerts/alerts.py:157 | the first day change `float` refuses is the one reported, before any later value or the current price |
| `AlertsTests.WorkedExample` | alerts/alerts.py:145-168 | a price of 10 against [1, 2, 3, 4, 5] deviates, with average 3, change 7 and percent 233.33 |
| `AlertsTests.SinglePointRefused` | alerts/alerts.py:159 | a one-point series raises `StatisticsError` |

## Left out

- Floating point: prices, means and variances are exact reals. IEEE rounding of intermediate results is not modelled, and neither is the rounding of `float(n)` for an int with more than 53 significant bits (the model converts it exactly; only the overflow of an int of magnitude 2^1024 - 2^970 or more is modelled).
- IEEE special values: `float("nan")`, `float("inf")` and `float("1e400")` give NaN or infinity in Python, which a parser returning `Option<real>` cannot produce. The model does not capture how NaN and infinity then flow through the mean, the standard deviation and the comparison.
- Builtins.ToFloat: Python's parsing of text with `float(...)` is not modelled. The parser is the parameter `parseFloat` (`None` where Python raises `ValueError`). The tests that cast decimal strings (tests/test_alerts.py:42-44) are therefore not restated.
- Builtins.Round2: rounds the exact real half-to-even. Python rounds the binary value of the float, so a decimal tie such as 2.675 can round differently there.
- Builtins.IsDigit: `str.isdigit` is modelled for the ASCII digits only. Other Unicode digit characters are not covered.
- Builtins.PyValue: only str, int, float, list and None are distinguished. A bool or dict symbol would also be refused as "not a string", and `float(True)` is not modelled.
- Alerts.CalculateVariance: returns the variance, the square of what `calculate_stdev` returns, because there is no square root on reals. `Statistics.IsSampleStdev` and `Alerts.DeviatedIffBeyondStdev` relate the two.
- `cast_list_string` (alerts/alerts.py:47-58) is `Alerts.CastList` with Python's `str`. The text form Python gives floats is not modelled, so it has no separate member. The core does not call it. The tests of `str` casts (tests/test_alerts.py:45-46) are therefore not restated.
- `get_list_of_symbols` and `gather_ticker_data` (alerts/alerts.py:61-72, 170-181) are HTTP requests. The model takes the symbol list and the ticker values as inputs.
- `api_alerts` (alerts/alerts.py:216-248) chains the network calls, exits on an error payload and prints. The validation result it computes at line 231 is only logged and does not stop the run.
- `send_alert` (alerts/alerts.py:184-212) reads the wall clock and formats JSON text.
- `set_logger` and every `LOGGER` call (alerts/alerts.py:15, 250-265) are global logger state and file/console output.
- `alerts/__main__.py` parses arguments and sets defaults; it has no logic of its own.
