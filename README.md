# BIST technical analyzer: a verified model of its analysis core

The BIST technical analyzer takes price series (OHLCV bars) for stocks
listed on Borsa Istanbul and turns each one into a trading signal. It works
in five steps:

1. It computes the classic indicators: SMA, EMA, RSI, MACD and Bollinger
   bands.
2. It lets six rules vote for buying or selling, and classifies the vote as
   STRONG_BUY, BUY, HOLD, SELL or STRONG_SELL with a confidence in percent.
3. It screens a signal for signs of a false signal: ten penalised checks
   add up to a false score and a confidence multiplier.
4. It backtests a signal against similar market states in the recent past.
5. It lays the signals out as the rows of an HTML report, grouped and sorted
   according to a stock-list file.

This project models those steps in Dafny and proves how they behave.

| Java class | Dafny module | file |
|---|---|---|
| `StockData` | `Stocks` | `stock_data.dfy` |
| `TechnicalIndicators` | `TechnicalIndicators` | `technical_indicators.dfy` |
| `SignalGenerator` | `SignalGenerator` | `signal_generator.dfy` |
| `SignalGeneratorOLD_BACKUP` | `SignalGeneratorOldBackup` | `signal_generator_old_backup.dfy` |
| `SignalValidator` | `SignalValidator` | `signal_validator.dfy` |
| `BacktestValidator` | `BacktestValidator` | `backtest_validator.dfy` |
| `HtmlReportGenerator` (the decision logic) | `HtmlReportGenerator` | `html_report_generator.dfy` |

Three support modules hold shared definitions:

- `Wrappers` has `Option`.
- `Doubles` models Java `double`:
  - `Double = Option<real>`, where `None` is `NaN`;
  - IEEE comparisons, which are false on NaN;
  - `Extended`, which adds the infinities for quotients whose divisor may be zero;
  - left-to-right sums.
- `JavaStrings` has the `String` operations the stock-list reader uses: `trim`, `startsWith`, `indexOf`, `contains`, `toUpperCase` and `equalsIgnoreCase`.

How the model is built:

- **Indicators.** Each indicator is a `method` that fills an array with the
  Java loops. Its `ensures` ties every element to a closed-form
  specification function, such as `SmaAt`, `EmaAt` or `RsiAt`. The lemmas
  about those functions give ranges, warm-up prefixes and band ordering.
- **The signal generator.** It is split the way the Java is written: one
  method per block (RSI, MACD, trend, Bollinger, volume, decision). Each block
  is proved against a rule function (`RsiRule`, …). `Generate` is the
  function the whole method is proved equal to. The earlier generator
  (`SignalGeneratorOLD_BACKUP`) shares those blocks and differs only in its
  detail text, which is Turkish HTML. A lemma proves that the two
  generators make the same decision.
- **The validator.** `ValidateSignalQuality` applies the ten checks in
  source order. It is proved equal to the function `Quality`, and the lemmas
  say which flags are raised and what the score adds up to.
- **The backtest.** `ValidateSignalWithBacktest` is proved equal to the
  function `Backtest`. The lemmas say where analogues come from, how they
  are counted and what the rate means. The horizon-check and maximum-move
  loops have their own methods and lemmas.
- **The report.** The model covers:
  - the signal ranking and comparator, and the partition of signals into the
    XU100 slot, the priority group and the rest;
  - the sort, the tables `generateReport` writes, and the strong-signal filter;
  - the stock-list reader and the name lookup, both over the file's lines;
  - the price-change cells.

  The report's HTML text is not modelled. A table is the sequence of
  `TableRow` values it writes.

## Model


| member | source | states |
|---|---|---|
| Doubles.WindowSumDefined | src/main/java/com/bist/analyzer/TechnicalIndicators.java:17-21 | a sum of doubles is defined (not NaN) exactly when every term is |
| TechnicalIndicators.MovingAverage | src/main/java/com/bist/analyzer/TechnicalIndicators.java:10-25 | the SMA loop fills every index with the window mean `SmaAt`, and with NaN before `period - 1` |
| TechnicalIndicators.CalculateSMA | src/main/java/com/bist/analyzer/TechnicalIndicators.java:10-25 | a value is undefined exactly before index `period - 1`; from there on it is the mean of the last `period` closes |
| TechnicalIndicators.CalculateEMA | src/main/java/com/bist/analyzer/TechnicalIndicators.java:30-52 | every element equals `EmaAt`: NaN before `period - 1`, the SMA seed at `period - 1`, then the recurrence with weight `2 / (period + 1)` |
| TechnicalIndicators.MultiplierInRange | src/main/java/com/bist/analyzer/TechnicalIndicators.java:32 | the EMA weight lies in (0, 1] |
| TechnicalIndicators.EmaBetweenCloseAndPrevious | src/main/java/com/bist/analyzer/TechnicalIndicators.java:42-44 | each EMA value after the seed lies between that bar's close and the previous EMA |
| TechnicalIndicators.GainLossSplit | src/main/java/com/bist/analyzer/TechnicalIndicators.java:64-66 | gains and losses are non-negative, at most one is non-zero, and gain − loss is the change |
| TechnicalIndicators.Gains | src/main/java/com/bist/analyzer/TechnicalIndicators.java:59-67 | the gains array has one entry per bar, is 0 at index 0 and is never negative |
| TechnicalIndicators.Losses | src/main/java/com/bist/analyzer/TechnicalIndicators.java:60-67 | the losses array has one entry per bar, is 0 at index 0 and is never negative |
| TechnicalIndicators.PriceChanges | src/main/java/com/bist/analyzer/TechnicalIndicators.java:62-67 | the first RSI loop yields exactly `Gains` and `Losses` |
| TechnicalIndicators.SeedAverages | src/main/java/com/bist/analyzer/TechnicalIndicators.java:69-76 | the seed averages are the means of gains and losses 1..period |
| TechnicalIndicators.SmoothNonNegative | src/main/java/com/bist/analyzer/TechnicalIndicators.java:80-81 | Wilder smoothing keeps averages non-negative |
| TechnicalIndicators.AvgGain | src/main/java/com/bist/analyzer/TechnicalIndicators.java:70-81 | the smoothed average gain is never negative |
| TechnicalIndicators.AvgLoss | src/main/java/com/bist/analyzer/TechnicalIndicators.java:70-81 | the smoothed average loss is never negative |
| TechnicalIndicators.SmoothedRsi | src/main/java/com/bist/analyzer/TechnicalIndicators.java:79-89 | every value after `period` is the RSI of the Wilder-smoothed average gain and loss (50 when both are zero, 100 when only the loss is), and the values up to `period` are left as they were |
| TechnicalIndicators.CalculateRSI | src/main/java/com/bist/analyzer/TechnicalIndicators.java:57-97 | every element equals `RsiAt`: NaN for indices 0..period, then the RSI of the smoothed averages |
| TechnicalIndicators.RsiInRange | src/main/java/com/bist/analyzer/TechnicalIndicators.java:83-88 | RSI always lies in [0, 100] |
| TechnicalIndicators.RsiHundredExactly | src/main/java/com/bist/analyzer/TechnicalIndicators.java:83-88 | RSI is 100 exactly when there are gains and no losses |
| TechnicalIndicators.RsiSeriesInRange | src/main/java/com/bist/analyzer/TechnicalIndicators.java:57-97 | every defined RSI value is in [0, 100], and the undefined prefix is exactly 0..period |
| TechnicalIndicators.SmaOfSuffixDefined | src/main/java/com/bist/analyzer/TechnicalIndicators.java:123 | an SMA over a series defined from `start` on is defined from `start + period - 1` on |
| TechnicalIndicators.CalculateMACD | src/main/java/com/bist/analyzer/TechnicalIndicators.java:108-135 | MACD = fast EMA − slow EMA, defined exactly from `max(fast, slow) - 1`; the signal line is its SMA, defined exactly from `max(fast, slow) + signal - 2`; the histogram is their difference, defined exactly where the signal line is |
| TechnicalIndicators.SumSquaredDeviations | src/main/java/com/bist/analyzer/TechnicalIndicators.java:153-156 | the inner Bollinger loop sums the squared deviations from the mean |
| TechnicalIndicators.CalculateBollingerBands | src/main/java/com/bist/analyzer/TechnicalIndicators.java:146-169 | all three bands are NaN before `period - 1`; from there on the middle is the window mean and upper/lower are mean ± multiplier × √(variance) |
| TechnicalIndicators.SquaredDeviationsNonNegative | src/main/java/com/bist/analyzer/TechnicalIndicators.java:155 | a sum of squared deviations is never negative |
| TechnicalIndicators.BandsOrdered | src/main/java/com/bist/analyzer/TechnicalIndicators.java:157-159 | with a non-negative multiplier and square root, lower ≤ middle ≤ upper |
| SignalGenerator.FindingVotesOneSide | src/main/java/com/bist/analyzer/SignalGenerator.java:47-115 | every finding votes for exactly one side, with one or two votes |
| SignalGenerator.RsiRule | src/main/java/com/bist/analyzer/SignalGenerator.java:47-62 | no vote when RSI is NaN; a double buy vote exactly below 30, a double sell vote exactly above 70; a buy vote needs RSI < 50 and a sell vote RSI > 50; a single buy vote needs a rising RSI, a single sell vote a falling one |
| SignalGenerator.MacdRule | src/main/java/com/bist/analyzer/SignalGenerator.java:64-79 | a buy vote exactly when both histogram values are defined and the last is positive, a sell vote exactly when it is negative; the vote is double exactly on a sign change from the previous bar |
| SignalGenerator.MaRule | src/main/java/com/bist/analyzer/SignalGenerator.java:81-90 | a vote exactly when both SMAs are defined; it is the buy vote exactly when SMA20 > SMA50 |
| SignalGenerator.Ema12Rule | src/main/java/com/bist/analyzer/SignalGenerator.java:92-98 | a vote exactly when EMA12 is defined; it is the buy vote exactly when the close is above it |
| SignalGenerator.BollingerRule | src/main/java/com/bist/analyzer/SignalGenerator.java:100-115 | a vote exactly when both bands are defined: two votes outside the bands, one inside; a double buy exactly below the lower band, a double sell exactly above the upper band (and not below the lower); a buy vote needs the close below the lower band or the middle, a sell vote needs it not below the lower band |
| SignalGenerator.VolumeRule | src/main/java/com/bist/analyzer/SignalGenerator.java:117-135 | a vote exactly when there is an earlier bar and the last volume exceeds 1.5 × the mean of the min(20, lastIdx) volumes before it; the vote goes to buy exactly when buy leads strictly |
| SignalGenerator.ClassifySides | src/main/java/com/bist/analyzer/SignalGenerator.java:137-155 | HOLD exactly on a tie; buy side exactly when buy leads; sell side exactly when sell leads |
| SignalGenerator.ClassifyStrong | src/main/java/com/bist/analyzer/SignalGenerator.java:141-149 | STRONG_BUY exactly when buy > 1.5 × sell; STRONG_SELL exactly when sell > 1.5 × buy |
| SignalGenerator.ConfidenceRange | src/main/java/com/bist/analyzer/SignalGenerator.java:139-155 | confidence is 50 on a tie, and otherwise strictly between 50 and 100 (100 included) |
| SignalGenerator.ClassifyMirror | src/main/java/com/bist/analyzer/SignalGenerator.java:137-155 | swapping the two counts mirrors the signal and keeps the confidence |
| SignalGenerator.RsiSignals | src/main/java/com/bist/analyzer/SignalGenerator.java:47-62 | the RSI block adds exactly the votes and the text of `RsiRule` |
| SignalGenerator.MacdSignals | src/main/java/com/bist/analyzer/SignalGenerator.java:64-79 | the MACD block adds exactly the votes and the text of `MacdRule` |
| SignalGenerator.TrendSignals | src/main/java/com/bist/analyzer/SignalGenerator.java:81-98 | the MA and EMA12 blocks add exactly the votes and the text of `MaRule` and `Ema12Rule` |
| SignalGenerator.BollingerSignals | src/main/java/com/bist/analyzer/SignalGenerator.java:100-115 | the Bollinger block adds exactly the votes and the text of `BollingerRule` |
| SignalGenerator.VolumeSignal | src/main/java/com/bist/analyzer/SignalGenerator.java:117-135 | the averaging loop computes the mean of the last `min(20, lastIdx)` volumes, and the block adds the vote of `VolumeRule` |
| SignalGenerator.DetermineSignal | src/main/java/com/bist/analyzer/SignalGenerator.java:137-155 | the decision is `Classify` and `Confidence` of the two counts |
| SignalGenerator.GenerateSignalWith | src/main/java/com/bist/analyzer/SignalGenerator.java:31-158 | the block sequence returns exactly `Generate` |
| SignalGenerator.GenerateSignal | src/main/java/com/bist/analyzer/SignalGenerator.java:31-158 | `generateSignal` with the English details returns `Generate` |
| SignalGenerator.VotesBounded | src/main/java/com/bist/analyzer/SignalGenerator.java:47-135 | RSI, MACD and Bollinger cast at most two votes each; MA, EMA12 and volume at most one; at most 9 in all |
| SignalGenerator.GenerateProperties | src/main/java/com/bist/analyzer/SignalGenerator.java:36-157 | empty data gives HOLD with confidence, timestamp and price 0; otherwise the result carries the last bar's timestamp and close, and its signal and confidence are as `ClassifySides`, `ClassifyStrong` and `ConfidenceRange` state |
| SignalGeneratorOldBackup.GenerateSignal | src/main/java/com/bist/analyzer/SignalGeneratorOLD_BACKUP.java:31-158 | the earlier `generateSignal` returns `Generate` with the Turkish fragments |
| SignalGeneratorOldBackup.SameDecisionAsCurrent | src/main/java/com/bist/analyzer/SignalGeneratorOLD_BACKUP.java:31-158 | the earlier and the current generator agree on symbol, timestamp, price, signal and confidence |
| SignalGeneratorOldBackup.VotesNeedDefinedValues | src/main/java/com/bist/analyzer/SignalGeneratorOLD_BACKUP.java:47-115 | the RSI, MACD, MA and Bollinger rules vote only when the values they read are defined |
| SignalGeneratorOldBackup.HoldOnTie | src/main/java/com/bist/analyzer/SignalGeneratorOLD_BACKUP.java:36-155 | empty data gives HOLD with confidence, timestamp and price 0; otherwise HOLD exactly on a tie, with confidence 50 |
| SignalValidator.CalculateAverageVolume | src/main/java/com/bist/analyzer/SignalValidator.java:268-279 | the mean volume of the last `period` bars, or the last bar's volume when there are fewer bars |
| SignalValidator.AverageVolumeBounded | src/main/java/com/bist/analyzer/SignalValidator.java:268-279 | when no volume exceeds `m`, the average lies in [0, m] |
| SignalValidator.NearLevelTrap | src/main/java/com/bist/analyzer/SignalValidator.java:93-119 | the level loop reports a trap exactly when some level is within 3% on the wrong side |
| SignalValidator.CheckTrendStrength | src/main/java/com/bist/analyzer/SignalValidator.java:61-64 | check 1 adds 35 and its flag exactly when ADX < 20 |
| SignalValidator.CheckVolumeSupport | src/main/java/com/bist/analyzer/SignalValidator.java:69-88 | check 2 adds 28 and its flag exactly when a breakout or breakdown has volume below 0.8 × average |
| SignalValidator.CheckSupportResistance | src/main/java/com/bist/analyzer/SignalValidator.java:93-119 | check 3 adds 25 once, however many levels trap the signal |
| SignalValidator.CheckSma50Distance | src/main/java/com/bist/analyzer/SignalValidator.java:124-130 | check 4 adds 15 exactly when the price is more than 5% from SMA50 |
| SignalValidator.CheckWickRejection | src/main/java/com/bist/analyzer/SignalValidator.java:135-146 | check 5 adds 18 exactly when the longer wick exceeds twice a non-empty body |
| SignalValidator.CheckFakeBreakout | src/main/java/com/bist/analyzer/SignalValidator.java:151-176 | check 6 adds 30 exactly for a BUY whose last close is above SMA50 after two rising closes (`close[n-3] < close[n-2] < close[n-1]`), or a SELL below SMA50 after two falling closes |
| SignalValidator.CheckMomentum | src/main/java/com/bist/analyzer/SignalValidator.java:181-191 | check 7 adds 20 exactly for a BUY with RSI(14) < 40 or a SELL with RSI(14) > 60 |
| SignalValidator.CheckMaAlignment | src/main/java/com/bist/analyzer/SignalValidator.java:196-214 | check 8 adds 22 exactly when the SMA20/SMA50/EMA200 stack opposes the signal |
| SignalValidator.CheckMarketMakerTrap | src/main/java/com/bist/analyzer/SignalValidator.java:219-227 | check 9 adds 15 exactly for a volume spike above 1.5 × average after a bar below 0.8 × average |
| SignalValidator.CheckOpenGap | src/main/java/com/bist/analyzer/SignalValidator.java:232-240 | check 10 adds 15 exactly for a gap above 1.5% whose bar closes against the signal |
| SignalValidator.FinalAdjustment | src/main/java/com/bist/analyzer/SignalValidator.java:245-260 | the score is capped at 100; the multiplier and reason come from steps at 90, 75 and 60 |
| SignalValidator.ValidateSignalQuality | src/main/java/com/bist/analyzer/SignalValidator.java:37-263 | the result is `Quality`: 100 and no flags below 5 bars; otherwise the capped sum of the penalties of the checks that fire, in source order |
| SignalValidator.PenaltyAt | src/main/java/com/bist/analyzer/SignalValidator.java:58-240 | each position holds the check in that position of the source order |
| SignalValidator.ScoreRange | src/main/java/com/bist/analyzer/SignalValidator.java:48-52 | the false score lies in [0, 100]; with fewer than 5 bars the result is 100, multiplier 1 and no flags |
| SignalValidator.PenaltyAtIndex | src/main/java/com/bist/analyzer/SignalValidator.java:58-240 | each check has its own position |
| SignalValidator.WeightsUpTo | src/main/java/com/bist/analyzer/SignalValidator.java:58-240 | the running score after `n` checks is the total weight of the flags raised so far |
| SignalValidator.RaisedWeights | src/main/java/com/bist/analyzer/SignalValidator.java:58-245 | the score before the cap is the total weight of the red flags |
| SignalValidator.RaisedLength | src/main/java/com/bist/analyzer/SignalValidator.java:58-240 | at most ten red flags are raised |
| SignalValidator.OneFlagPerPenalty | src/main/java/com/bist/analyzer/SignalValidator.java:58-240 | a flag is raised exactly when its check fires, and then exactly once |
| SignalValidator.SignalFreeScore | src/main/java/com/bist/analyzer/SignalValidator.java:58-240 | when only the ADX, SMA50-distance, wick and volume-spike checks can fire, only their flags appear and the score is at most 83 |
| SignalValidator.NeutralSignalScore | src/main/java/com/bist/analyzer/SignalValidator.java:58-240 | a signal other than BUY or SELL scores at most 83 |
| SignalValidator.MultiplierMonotone | src/main/java/com/bist/analyzer/SignalValidator.java:248-260 | a higher false score never gives a higher multiplier |
| SignalValidator.IsFalseBreakout | src/main/java/com/bist/analyzer/SignalValidator.java:284-318 | true exactly when the last bar broke out or broke down and one of the previous `min(lookback, 3) - 1` bars closed on the other side |
| SignalValidator.FalseBreakoutNeedsHistory | src/main/java/com/bist/analyzer/SignalValidator.java:290-306 | too little data, or a lookback of at most 1, is never a false breakout |
| SignalValidator.FalseBreakoutLookbackCapped | src/main/java/com/bist/analyzer/SignalValidator.java:305-306 | every lookback of 3 or more gives the same answer |
| SignalValidator.IsStopHuntPattern | src/main/java/com/bist/analyzer/SignalValidator.java:323-339 | a pattern means the close is above support and the low is more than half an ATR below it |
| SignalValidator.StopHuntProperties | src/main/java/com/bist/analyzer/SignalValidator.java:323-339 | with a non-negative ATR, a pattern's range spans the support; a pattern at some ATR remains one at every smaller non-negative ATR |
| BacktestValidator.CheckIfTargetReached | src/main/java/com/bist/analyzer/BacktestValidator.java:160-201 | true exactly when, at one of the horizons 1, 3, 5 or 10 that fits, the high rose (BUY) or the low fell (SELL) by 5% of the entry price |
| BacktestValidator.CalculateMaxMove | src/main/java/com/bist/analyzer/BacktestValidator.java:206-226 | the largest favourable relative move over the next 10 bars, starting from 0 |
| BacktestValidator.ScanIndex | src/main/java/com/bist/analyzer/BacktestValidator.java:72-101 | one scan step adds a similar bar to the count and to the success tally, and keeps it as an example while fewer than three are held |
| BacktestValidator.AnalogueStep | src/main/java/com/bist/analyzer/BacktestValidator.java:72-101 | after one more index the analogue count, the success tally and the held examples grow exactly by the analogue at that index, if it is one |
| BacktestValidator.FirstThreeStep | src/main/java/com/bist/analyzer/BacktestValidator.java:83-100 | examples are kept only while fewer than three are held |
| BacktestValidator.ValidateSignalWithBacktest | src/main/java/com/bist/analyzer/BacktestValidator.java:36-118 | the result is `Backtest`: empty before bar 60, otherwise the count, successes, rate and first three examples of the analogues in the scan window |
| BacktestValidator.ConfidenceMultiplier | src/main/java/com/bist/analyzer/BacktestValidator.java:231-246 | the multiplier lies in [0, 1]; it is 0.8 with fewer than three analogues; from three on, it is 1 exactly at a rate ≥ 0.7 and 0 exactly below 0.3 |
| BacktestValidator.WindowBounds | src/main/java/com/bist/analyzer/BacktestValidator.java:60-63 | the scan starts at max(20, currentIdx − 100) and before currentIdx − 10, so the `i < 20` skip never fires |
| BacktestValidator.AnaloguesAreSimilar | src/main/java/com/bist/analyzer/BacktestValidator.java:62-77 | every analogue comes from the window, in increasing order, and is similar to the current bar |
| BacktestValidator.SimilarIsAnalogue | src/main/java/com/bist/analyzer/BacktestValidator.java:62-77 | every similar bar in the window yields an analogue |
| BacktestValidator.SuccessesBounded | src/main/java/com/bist/analyzer/BacktestValidator.java:76-83 | no more analogues succeed than exist |
| BacktestValidator.ResultBounds | src/main/java/com/bist/analyzer/BacktestValidator.java:36-118 | successes ≤ total; the rate is in [0, 1]; there are min(3, total) examples; before bar 60 everything is 0; with no analogue the rate is 0.5; otherwise it is successes / total |
| BacktestValidator.SimilarSymmetric | src/main/java/com/bist/analyzer/BacktestValidator.java:124-155 | similarity does not depend on which bar is the current one |
| BacktestValidator.SimilarDefined | src/main/java/com/bist/analyzer/BacktestValidator.java:124-155 | with defined values and a non-zero SMA20, similarity is the four plain bounds |
| BacktestValidator.MaxHighGrows | src/main/java/com/bist/analyzer/BacktestValidator.java:174-180 | the running maximum never decreases over a longer stretch |
| BacktestValidator.MinLowShrinks | src/main/java/com/bist/analyzer/BacktestValidator.java:174-180 | the running minimum never increases over a longer stretch |
| BacktestValidator.ReachedAtMonotone | src/main/java/com/bist/analyzer/BacktestValidator.java:164-198 | for a non-negative entry price, a target met at one horizon is met at every longer one that fits |
| BacktestValidator.TargetAtLongestHorizon | src/main/java/com/bist/analyzer/BacktestValidator.java:160-201 | the target is reached exactly when it is reached at the longest fitting horizon; it never is when none fits, nor for a signal other than BUY or SELL |
| BacktestValidator.MoveNotNegative | src/main/java/com/bist/analyzer/BacktestValidator.java:206-226 | the largest move is never negative; a zero entry price can make it +infinity or NaN |
| BacktestValidator.MoveIsHighestGain | src/main/java/com/bist/analyzer/BacktestValidator.java:206-226 | for a BUY with a positive entry price, the move is the gain to the highest of the next 10 highs |
| BacktestValidator.MoveIsDeepestFall | src/main/java/com/bist/analyzer/BacktestValidator.java:206-226 | for a SELL with a positive entry price, the move is the fall to the lowest of the next 10 lows |
| BacktestValidator.MaxMoveMatchesTarget | src/main/java/com/bist/analyzer/BacktestValidator.java:160-226 | with a positive entry price and ten bars of future, the move reaches 5% exactly when the 10-bar target is met |
| BacktestValidator.MultiplierMonotone | src/main/java/com/bist/analyzer/BacktestValidator.java:231-246 | once there are three analogues, a higher success rate never lowers the multiplier |
| JavaStrings.TrimStart | src/main/java/com/bist/analyzer/HtmlReportGenerator.java:602 | the leading characters up to and including the space are removed, and no more |
| JavaStrings.TrimEnd | src/main/java/com/bist/analyzer/HtmlReportGenerator.java:602 | the trailing characters up to and including the space are removed, and no more |
| JavaStrings.TrimProperties | src/main/java/com/bist/analyzer/HtmlReportGenerator.java:602 | trimming leaves no trimmable character at either end and is idempotent |
| JavaStrings.IndexOfFrom | src/main/java/com/bist/analyzer/HtmlReportGenerator.java:617-618 | returns the first occurrence at or after `from`, or −1 when there is none |
| JavaStrings.ToUpperProperties | src/main/java/com/bist/analyzer/HtmlReportGenerator.java:628-630 | upper-casing keeps the length and every character that is not a lower-case ASCII letter, turns each lower-case letter into its upper-case form, leaves no lower-case letter behind, and is idempotent |
| JavaStrings.EqualsIgnoreCaseUpper | src/main/java/com/bist/analyzer/HtmlReportGenerator.java:622 | equality up to case holds exactly when the upper-cased strings are equal |
| HtmlReportGenerator.SignalValue | src/main/java/com/bist/analyzer/HtmlReportGenerator.java:377-392 | the rank lies in 0..5 (see `SignalValueRanks` for its meaning) |
| HtmlReportGenerator.SignalValueRanks | src/main/java/com/bist/analyzer/HtmlReportGenerator.java:377-392 | each label has its own positive rank; buy side > 3 = HOLD > sell side; mirroring reflects the rank about 3 |
| HtmlReportGenerator.SignalTextProperties | src/main/java/com/bist/analyzer/HtmlReportGenerator.java:377-409 | rank 0 exactly for non-labels, which are shown unchanged; the five Turkish texts are distinct |
| HtmlReportGenerator.CompareIsOrder | src/main/java/com/bist/analyzer/HtmlReportGenerator.java:150-157 | the comparator orders by rank descending, then by confidence descending; it is antisymmetric and transitive |
| HtmlReportGenerator.InsertPermutes | src/main/java/com/bist/analyzer/HtmlReportGenerator.java:159-160 | inserting adds exactly the element to the multiset |
| HtmlReportGenerator.InsertSorted | src/main/java/com/bist/analyzer/HtmlReportGenerator.java:159-160 | inserting into a sorted list keeps it sorted |
| HtmlReportGenerator.SortCorrect | src/main/java/com/bist/analyzer/HtmlReportGenerator.java:159-160 | the sort returns a permutation of its input in comparator order |
| HtmlReportGenerator.PartitionSignals | src/main/java/com/bist/analyzer/HtmlReportGenerator.java:135-147 | the XU100 slot holds the last XU100 signal; priority holds the signals listed before the separator; the rest holds the others, each in input order |
| HtmlReportGenerator.MembersCount | src/main/java/com/bist/analyzer/HtmlReportGenerator.java:139-147 | each signal is in its group as often as it was given, and in no other group |
| HtmlReportGenerator.Xu100Independent | src/main/java/com/bist/analyzer/HtmlReportGenerator.java:140-141 | the XU100 slot does not depend on the priority list |
| HtmlReportGenerator.Xu100Present | src/main/java/com/bist/analyzer/HtmlReportGenerator.java:139-147 | the slot is filled exactly when some signal is XU100, and it holds the last one |
| HtmlReportGenerator.TableRowsCount | src/main/java/com/bist/analyzer/HtmlReportGenerator.java:135-175 | each non-XU100 signal appears as often as it was given; an XU100 signal appears once if it is the last XU100, otherwise not at all |
| HtmlReportGenerator.SortedGroupMembers | src/main/java/com/bist/analyzer/HtmlReportGenerator.java:159-160 | the sorted priority and rest groups contain only their own members |
| HtmlReportGenerator.TableRowsOrdered | src/main/java/com/bist/analyzer/HtmlReportGenerator.java:162-175 | the table lists XU100, then priority, then the rest, each group in comparator order |
| HtmlReportGenerator.TableRowsNonEmpty | src/main/java/com/bist/analyzer/HtmlReportGenerator.java:162-175 | a table with a signal has a row |
| HtmlReportGenerator.AddSignalRow | src/main/java/com/bist/analyzer/HtmlReportGenerator.java:181-208 | a row shows the symbol, the stock-list name, the price, the Turkish signal text, the confidence and the compact price changes |
| HtmlReportGenerator.AddSignalRows | src/main/java/com/bist/analyzer/HtmlReportGenerator.java:168-175 | the row loop writes one row per signal, in order |
| HtmlReportGenerator.GenerateSignalTable | src/main/java/com/bist/analyzer/HtmlReportGenerator.java:109-179 | the rows written are those of `TableRows`, in that order, and there is at least one when there is a signal |
| HtmlReportGenerator.StrongBist100Signals | src/main/java/com/bist/analyzer/HtmlReportGenerator.java:56-62 | the filter loop returns `Strong`, the STRONG_BUY and STRONG_SELL signals in order |
| HtmlReportGenerator.StrongExactly | src/main/java/com/bist/analyzer/HtmlReportGenerator.java:56-62 | the filter keeps every strong signal as often as it was given, and nothing else |
| HtmlReportGenerator.GenerateReport | src/main/java/com/bist/analyzer/HtmlReportGenerator.java:14-107 | the report holds the user table exactly when there are user signals, then the strong BIST 100 table exactly when there is a strong signal; each table is that of `GenerateSignalTable` and is non-empty |
| HtmlReportGenerator.ReadStockListGroups | src/main/java/com/bist/analyzer/HtmlReportGenerator.java:590-638 | the two sets are those of `Groups` over the file's lines |
| HtmlReportGenerator.GroupsMembership | src/main/java/com/bist/analyzer/HtmlReportGenerator.java:599-632 | a separator is found exactly when some line is one; a symbol is in `before` exactly when a line before every separator names it, and in `after` exactly when a line after some separator names it |
| HtmlReportGenerator.NoXu100 | src/main/java/com/bist/analyzer/HtmlReportGenerator.java:621-624 | no line, whatever its case, yields the symbol XU100 |
| HtmlReportGenerator.NoXu100InGroups | src/main/java/com/bist/analyzer/HtmlReportGenerator.java:621-631 | XU100 is in neither group |
| HtmlReportGenerator.GetStockName | src/main/java/com/bist/analyzer/HtmlReportGenerator.java:640-671 | the result is `StockName`: the loop stops at the first matching line |
| HtmlReportGenerator.FirstNameMatch | src/main/java/com/bist/analyzer/HtmlReportGenerator.java:647-671 | the name comes from the first line that names the symbol; it is "" when no line does |
| HtmlReportGenerator.ChangeAtMeaning | src/main/java/com/bist/analyzer/HtmlReportGenerator.java:466-484 | a cell is "-" exactly when the target bar is outside the data; with a positive old price it is (cur − old) / old × 100, positive exactly when the price did not fall |
| HtmlReportGenerator.CompactHorizonsNested | src/main/java/com/bist/analyzer/HtmlReportGenerator.java:489-538 | when a longer horizon has a value, every shorter one does |
| HtmlReportGenerator.OneMonthMatchesCell | src/main/java/com/bist/analyzer/HtmlReportGenerator.java:543-554 | the 1-month change equals the "1a" cell of the compact column, and is 0 where that cell is "-" |

## Left out

- Reading files and the clock are outside the model. `stock_list.txt` is given as its lines; a missing file is no lines. The date in the page header is not modelled.
- The HTML, CSS and JavaScript text of the report is outside the model, as are number formatting (`String.format`, a parameter `format1` in the generators) and the `signalClass` CSS class name.
- The report's unused private methods are not modelled: `generateStockDetail`, `generatePriceChangeTable` and `readPriorityStocks`. Only the cell logic of `appendPriceChange` is modelled, as `ChangeAt`.
- `get1MonthChange` has no caller; it is modelled anyway.
- `generateBacktestReport` and the texts of the backtest examples are left out: it only formats text.
- The classes outside the analysis core are not part of this model: `BistAnalyzerApp`, `StockDataFetcher`, `ChartGenerator` and `FtpReportUploader`. ADX and the support/resistance levels are inputs computed there.
- `Math.sqrt` is the parameter `sqrt`, and the lemmas assume only that its result is non-negative. Floating-point rounding is not modelled: doubles are reals, or NaN, or (where a divisor can be zero) an infinity.
- Case mapping: `ToUpper` and `EqualsIgnoreCase` handle ASCII letters only, under a default locale that is not Turkish. Java's `toUpperCase()` follows the JVM's default locale. Under tr-TR it maps `i` to `İ` (U+0130), which `UpperChar` does not model.
- `trim` removes every code unit up to and including the space, as in Java.
- Volume is a `nat`: the sum of volumes in a `long` cannot overflow in the model.
- TechnicalIndicators.CalculateSMA requires a positive period, which the Java does not. With period 0, `calculateSMA` divides an empty sum by zero and returns NaN at every index. With a negative period it returns -0.0 at every index. The model does not describe these two series. Every call site in the repository passes a fixed positive period.
- TechnicalIndicators.CalculateRSI requires a positive period, which the Java does not. With period 0 on non-empty data, `calculateRSI` returns NaN at every index; on empty data it writes `rsi[0]` and throws. With period -1 it runs the smoothing with a negative divisor and returns finite values. The model does not describe these series. Below -1, the Java indexes out of bounds.
- TechnicalIndicators.CalculateRSI also requires `period < |data|`. Otherwise the Java reads `gains[period]` out of bounds.
- TechnicalIndicators.CalculateEMA requires `1 <= period <= |data|`. Otherwise the Java indexes `ema[period - 1]` or `data.get(i)` out of bounds.
- TechnicalIndicators.CalculateBollingerBands requires `1 <= period <= |data| + 1`. Otherwise the Java writes the bands or the NaN prefix out of bounds. For a period of 0 or less, the band loop starts at the negative index `period - 1` and throws, on empty data too.
- TechnicalIndicators.CalculateMACD: line 123 passes a `double[]` where `calculateSMA` expects a list of bars, which does not type-check. The model reads it as the SMA of the MACD values, which is what the comments and the histogram assume.
- TechnicalIndicators.CalculateMACD requires `1 <= fast, slow <= |data|`, since the EMA calls index out of bounds otherwise. It also requires `signal >= 1`, which the Java does not. A signal period of 0 would give an all-NaN signal line and histogram, and a negative one an all -0.0 signal line. The model does not describe these series.
- SignalValidator.ValidateSignalQuality requires fewer than 5 or at least 15 bars. With 5 to 14 bars, `calculateRSI(data, 14)` in check 7 indexes out of bounds and the Java throws.
- SignalValidator.ValidateSignalQuality: the unused `adxResult` argument is not modelled. The red-flag texts are the `Penalty` values. The reason omits the "(score/100)" suffix.
- SignalGenerator.GenerateSignalWith, SignalGenerator.GenerateSignal and SignalGeneratorOldBackup.GenerateSignal, with the blocks and rules they call, require every indicator array to be at least as long as `data`. On non-empty data, the Java reads `rsi`, `sma20`, `ema12` and `bb.upper` at the last index without a guard, so a shorter one of these throws. The other arrays are read only behind a guard:
  - `sma50` when `sma20` is defined;
  - `macd.histogram` when there are two bars;
  - `bb.lower` when `bb.upper` is defined;
  - `bb.middle` when the close lies within the bands.
  With one of these four arrays too short and its guard false, the Java returns normally, and the model does not describe that result either. The one call site, in `BistAnalyzerApp`, builds every array from the same bars.
- BacktestValidator.ValidateSignalWithBacktest and BacktestValidator.Backtest require, from bar 60 on, that `currentIdx` indexes `data` and every indicator series. BacktestValidator.java:54-57 reads `data`, `rsi` and `adx` at `currentIdx` without a guard, so a shorter one of these throws. `sma20` and `sma50` are read only at lines 143-150, after the RSI and ADX filters at lines 135-140 pass for some bar. When the series are too short and no bar passes, for example when every earlier RSI differs from the current one by more than 15, the Java returns normally: no analogue and rate 0.5. The model does not describe that result.
- SignalValidator.IsFalseBreakout and SignalValidator.FalseBreakout require `|data| > 0 || lookbackBars > 0`. On empty data with `lookbackBars <= 0`, the size guard at SignalValidator.java:290 lets the call through and `data.get(-1)` at line 293 throws. The model does not describe that exception.
- SignalValidator.CalculateAverageVolume requires a period of at least 1 and non-empty data. Its only caller passes 20 after checking for at least 5 bars.
- HtmlReportGenerator.SortCorrect states order and permutation but not stability. `List.sort` is modelled as a stable insertion sort.
- HtmlReportGenerator.CompareIsOrder: the `Double.compare` treatment of `-0.0` and NaN confidence is not modelled, since confidence is always a finite value in [0, 100].
- BacktestValidator.CalculateMaxMove is only called for kept examples; the model computes it for each analogue's `Example` in the same way.
