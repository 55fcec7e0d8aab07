# Stock-trend indicators, modelled in Dafny

This project models the numeric core of a small batch pipeline of
technical-analysis indicators (`main.py`). Prices are Dafny `real` numbers. It
covers these parts:

- **Rolling aggregator** (`RollingAggregator`): `moving_average` slides a
  window over the prices and emits the mean of each window. It is a method
  with a loop, proved equal to the specification function `MovingAverages`.
  Lemmas about that function give the output length, each element, bounds,
  constant input and the step between consecutive averages.
- **Trend analyzer** (`TrendAnalyzer`): `detect_trend` and `trend_strength`
  classify the last two moving-average values. Their text labels become the
  datatypes `Trend` and `Strength`. A zero previous value is the
  `DivisionByZero` error, as Python raises `ZeroDivisionError` there.
- **Signal detector** (`SignalDetector`): `signal` checks three things in
  order: an empty series, then the scalar volatility gate, then the latest
  short value against the latest long value.
- **Crossover scanner** (`CrossoverScanner`): `buy_sell` records buy and sell
  positions in short-series index space.
  - `BuySell` is the code as written. It reads with Python's list indexing,
    so a negative index silently reads from the end.
  - `BuySellAligned` is the corrected scan (see Findings).
  - Both methods are proved equal to the recursive specification `Scan`.
    Lemmas show which positions it lists, in what order, when its reads are
    in range, and which price crossings it reports.
- **Day alignment and the exported rows** (`Alignment`, `Reporter`): element
  `i` of a series with window `w` belongs to day `i + w - 1`. The rows that
  `export_result` writes are modelled as a pure function, without the file.
- `Wrappers` and `PythonList` hold `Option`/`Result` and Python's indexing,
  slicing and `range` length. `IndicatorAgreement` links the signal to the
  crossover scan.

Behaviour of the code that the model keeps, stated once:

- A window of 0 raises `ZeroDivisionError`, because the loop always runs once.
- A window longer than the series gives an empty list, not an error.
- A negative window follows Python's slice rules.
- `buy_sell` accepts any pair of windows, including `short_w >= long_w`.
- Out-of-range reads in `buy_sell` and `export_result` are `IndexError`.

## Model

| member | source | states |
|---|---|---|
| `RollingAggregator.MovingAverage` | main.py:17-25 | the loop returns exactly `MovingAverages`: `DivisionByZero` for a zero window, otherwise for each `i in range(len(data) - w + 1)` the sum of the Python slice `data[i:i+w]` divided by `w` |
| `RollingAggregator.MovingAverageShape` | main.py:20-23 | for `1 <= w <= len(data)` there are exactly `len(data) - w + 1` averages, and element `i` is `Sum(data[i..i+w]) / w` |
| `RollingAggregator.WindowLongerThanSeries` | main.py:20 | a window longer than the series yields an empty list and no error |
| `RollingAggregator.AverageWithinBounds` | main.py:21-22 | every average lies within any lower and upper bound of the prices |
| `RollingAggregator.PositivePricesPositiveAverages` | main.py:21-22 | positive prices give positive averages |
| `RollingAggregator.ConstantSeriesConstantAverages` | main.py:17-25 | a constant series of `x` gives `len(data) - w + 1` copies of `x` |
| `RollingAggregator.AverageAt` | main.py:20-23 | for every full window starting at `i`, the moving average has an element `i`, and it is that window's mean |
| `RollingAggregator.ConsecutiveAverageDifference` | main.py:20-23 | consecutive averages differ by (price entering the window minus price leaving it) / `w` |
| `RollingAggregator.SumAppend` | main.py:22 | `sum` of a concatenation is the sum of the parts |
| `TrendAnalyzer.DetectTrend` | main.py:27-39 | insufficient data exactly when fewer than 2 values; otherwise Upward iff last > previous, Downward iff last < previous, Sideways iff equal |
| `TrendAnalyzer.TrendStrength` | main.py:41-53 | insufficient data exactly when fewer than 2 values; `DivisionByZero` exactly when the previous value is 0; otherwise Weak iff the change percentage is below 0.3, Moderate iff in [0.3, 1.0), Strong iff at least 1.0 |
| `TrendAnalyzer.TrendReversal` | main.py:31-39 | swapping the last two values swaps Upward and Downward and keeps Sideways |
| `TrendAnalyzer.LastStepOfMovingAverage` | main.py:20-23 | the last step of a moving average is (newest price minus the price that left the window) / `w` |
| `TrendAnalyzer.TrendFromDifference` | main.py:34-39 | a last step of `d / w` with `w > 0` gives the trend of the sign of `d` |
| `TrendAnalyzer.MovingAverageTrend` | main.py:17-39 | the trend of a moving average is Upward / Downward / Sideways exactly when the newest price is above / below / equal to the price `w` days earlier |
| `TrendAnalyzer.SidewaysIsWeak` | main.py:34-49 | a sideways trend with a non-zero previous value is always Weak |
| `TrendAnalyzer.NegativePreviousIsWeak` | main.py:45-49 | because the divisor keeps its sign, a negative previous value is always Weak, however large the move |
| `TrendAnalyzer.StrengthScaleInvariant` | main.py:45-53 | multiplying both values by a positive factor keeps the strength |
| `TrendAnalyzer.StrengthMonotone` | main.py:45-53 | with a positive previous value, a larger absolute move never gives a weaker bucket |
| `TrendAnalyzer.PositivePricesStrengthDefined` | main.py:41-46 | on the moving average of positive prices the division never fails |
| `SignalDetector.Detect` | main.py:64-76 | an empty series gives insufficient data whatever the volatility; otherwise volatility below the floor gives Ignore; otherwise Buy / Sell / Hold iff last short >, <, == last long |
| `SignalDetector.DetectSwapMirrors` | main.py:71-76 | exchanging the short and long series turns Buy into Sell and back, and keeps every other outcome |
| `SignalDetector.DetectUsesLastValuesOnly` | main.py:71-76 | older history never changes the signal |
| `SignalDetector.HigherFloorOnlyIgnores` | main.py:64-69 | raising the volatility floor can only turn the signal into Ignore |
| `CrossoverScanner.Classify` | main.py:91-94 | buy iff `prev_short <= prev_long and curr_short > curr_long`; sell iff `prev_short >= prev_long and curr_short < curr_long` |
| `CrossoverScanner.BuySell` | main.py:78-96 | the loop as written returns exactly `Scan` from `max(short_w, long_w) - 1` with Python indexing: the lists, or `IndexError` if any read is out of range after wrap-around |
| `CrossoverScanner.BuySellAligned` | main.py:78-96 | the corrected loop returns exactly `Scan` from `max(short_w, long_w) - short_w + 1` with no wrap-around |
| `CrossoverScanner.ScanErrorPersists` | main.py:84-89 | once a read raises, the whole scan raises `IndexError` |
| `CrossoverScanner.ScanOkIff` | main.py:84-89 | the scan succeeds exactly when all four reads at every scanned position succeed |
| `CrossoverScanner.ScanPoints` | main.py:82-96 | the buy and sell lists are strictly increasing; `i` is a buy (sell) iff it is in the scanned range and the buy (sell) test holds there |
| `CrossoverScanner.ScanPointsDisjoint` | main.py:82-96 | no position is both a buy and a sell; every point lies in `[start, len(short_ma))` |
| `CrossoverScanner.ScanWithoutWrap` | main.py:85-89 | when no read index is negative, Python's wrap-around changes nothing |
| `CrossoverScanner.AlignedReadsInBounds` | main.py:85-89 | for series of moving-average lengths over `n` prices with windows in `[1, n]`, all four reads are in range at every position from the aligned start, so the scan succeeds |
| `CrossoverScanner.AsWrittenReadsInBounds` | main.py:82-89 | with `2 <= short_w`, every read of the code as written is a valid non-negative index, so it never wraps and never raises |
| `CrossoverScanner.AsWrittenWrapsAtUnitShortWindow` | main.py:82-86 | with `short_w = 1` the first position examined reads the long series at index -1, which is its last element; the aligned reading there does not exist |
| `CrossoverScanner.ShortWindowTwoAgrees` | main.py:82-96 | with `short_w = 2` the code as written and the aligned scan give the same result on every input |
| `CrossoverScanner.AsWrittenIsSuffixOfAligned` | main.py:82-96 | with `short_w >= 2` the code as written reports exactly the aligned points at or after its own, later, start |
| `CrossoverScanner.AlignedReadingAtDay` | main.py:85-89 | at the position of day `d`, the four values read are the short and long trailing means of days `d - 1` and `d` |
| `CrossoverScanner.AlignedScanFindsCrossings` | main.py:78-96 | for any two series of trailing means of the same prices, the aligned scan succeeds and reports day `d` as a buy (sell) iff the short mean crosses above (below) the long one between days `d - 1` and `d` |
| `CrossoverScanner.AlignedScanFindsEveryCrossing` | main.py:78-96 | over the moving averages of the same prices, day `d` is a buy (sell) iff `max(S, L) <= d < n` and the `S`-day trailing mean crosses above (below) the `L`-day one between days `d - 1` and `d` |
| `CrossoverExamples.UnitShortWindowSpuriousBuy` | main.py:82-94 | prices 1, 3, 5 with windows 1 and 2: the code as written reports a buy at position 1; the aligned scan reports none |
| `CrossoverExamples.WideShortWindowMissedBuy` | main.py:82-94 | prices 0, 0, 0, 0, 12, 0 with windows 3 and 4: the aligned scan reports the buy at position 2; the code as written reports none |
| `Alignment.DayToIndex` | main.py:119-120 | `day - (w - 1)` and `i + w - 1` are inverse conversions between day and series position |
| `Alignment.MovingAverageAtDay` | main.py:119-120 | a day has a value in the window-`w` series exactly from day `w - 1` on, and that value is the mean of the `w` prices ending on that day |
| `Alignment.MovingAveragesAreTrailingMeans` | main.py:17-25 | for a window of at least 1, the moving average has one element per day from `w - 1` on, and each is the trailing mean of its day |
| `Reporter.AlignedCellOfTrailingMeans` | main.py:119-120 | a cell read from a series of trailing means never raises; it is blank before the window fills and the trailing mean of the day after |
| `Reporter.RowsOfTrailingMeans` | main.py:118-121 | over two series of trailing means, the first `k` rows are one per day in day order, each with that day's price and aligned cells, and no read raises |
| `Reporter.ExportOfMovingAverages` | main.py:113-121 | the exported table has one row per day with the day, its price, and short and long cells that are blank before each window fills and the trailing mean of the day after |
| `IndicatorAgreement.LastCrossoverDecidesSignal` | main.py:64-96 | once the volatility gate passes, a buy (sell) crossover on the newest aligned position means the instant signal is Buy (Sell) |

## Left out

- `read_data` (main.py:5-15): reading the CSV file and parsing floats is I/O.
  The model starts from a sequence of prices.
- `ploting` (main.py:99-111): chart rendering through matplotlib.
- The file part of `export_result` (main.py:113-121): opening and writing the
  CSV file and its header row. Only the rows are modelled. On an
  `IndexError` Python leaves a partly written file; the model returns only
  the error.
- `volatility` (main.py:55-62): it calls `statistics.stdev`, which takes a
  square root. The volatility gate of `signal` takes the latest reading as a
  plain `real` parameter.
- The `__main__` driver (main.py:123-146): it fixes windows 5 and 10, prints
  and rounds. Printing and `round` are left out, and the windows are
  parameters everywhere.
- IEEE floating point: prices, averages and the 0.3 and 1.0 thresholds are
  exact reals. Over floats, summation order and the binary value of 0.3 can
  move a result across a bucket boundary or change an equality (Sideways,
  Hold, the `<=`/`>=` crossing tests). The model does not capture that.
- Python's dynamic typing: windows are integers and prices are numbers. The
  model does not cover non-integer windows or mixed element types.

## Findings

Both rows concern the start of the scan in `buy_sell` (main.py:82). There
`i` is used as a position in the short series, but `max(short_w, long_w) - 1`
is the first *day* on which both averages exist. The plot (main.py:104) also
treats the returned positions as days. Position `i` of the short series is
day `i + short_w - 1`. So the first position whose previous day has both
averages is `max(short_w, long_w) - short_w + 1`. The two starts agree only
when `short_w = 2` (`ShortWindowTwoAgrees`).

| source | as written | input that shows it | evidently intended | confidence | as-written member | corrected member |
|---|---|---|---|---|---|---|
| main.py:82-89 | with `short_w = 1` the first position examined reads `long_ma[-1]`, which Python wraps to the newest long average. That day's value is compared with a price from days earlier. | prices `[1, 3, 5]`, windows 1 and 2: the code reports a buy at position 1, although day 0 has no long average | compare only values of the same day, starting at the first position whose previous day has both averages | high; not executed | `CrossoverScanner.BuySell`, shown by `CrossoverExamples.UnitShortWindowSpuriousBuy` and `CrossoverScanner.AsWrittenWrapsAtUnitShortWindow` | `CrossoverScanner.BuySellAligned`, proved by `CrossoverScanner.AlignedScanFindsEveryCrossing` |
| main.py:82-84 | with `short_w >= 3` the scan starts `short_w - 2` positions late. Crossings on those days are never examined, although every read there is in range. | prices `[0, 0, 0, 0, 12, 0]`, windows 3 and 4: the 3-day mean rises above the 4-day mean on day 4 (position 2), and the code reports nothing | examine every day on which both averages exist on that day and the day before | medium; not executed | `CrossoverScanner.BuySell`, shown by `CrossoverExamples.WideShortWindowMissedBuy` and `CrossoverScanner.AsWrittenIsSuffixOfAligned` | `CrossoverScanner.BuySellAligned`, proved by `CrossoverScanner.AlignedScanFindsEveryCrossing` |

The rest of the model builds on the corrected scan
(`IndicatorAgreement.LastCrossoverDecidesSignal`).
