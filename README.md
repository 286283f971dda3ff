# Candle scanner: decision core in Dafny

The Android candle scanner turns camera frames of a price chart into a rolling list of
candles, then runs a 40-second "decision" countdown that scores that list in four
layers (trend, pattern, location, indicator) and reports BUY, SELL, WAIT or NO_TRADE
with an accuracy percentage. This project models three parts of that core:

- `DecisionEngine` (`decision_engine.dfy`) is the scoring engine.
  - `Evaluate` is a total function from a snapshot and a threshold to a `Result`.
  - `CheckTrend` is the counting loop of the trend layer, proved equal to the specification function `TrendScore`.
  - `CheckPattern` and `CheckLocation` are the pattern and location layers.
  - The reason string is kept as a `Reason` value. `Reason.Text` renders the exact text the engine reports, including its en dashes and the interpolated accuracy and threshold.
- `CandleAnalyzer` (`candles.dfy`, `candle_analyzer.dfy`) is the frame analyzer after its image-processing calls.
  - It covers the quality gate, the slender-shape filter and candle construction.
  - The candles are sorted stably by x.
  - They are then merged into a history of at most 30 candles. The merge skips a candle whose x equals the tail's x and evicts the oldest candle past 30.
  - The analyzer is a class whose `recentCandles` field the methods update. Those methods are proved against the functions `ExtractCandles`, `SortByX`, `Push` and `PushAll`.
- `DecisionPipeline` (`decision_pipeline.dfy`) is a class that runs the four countdown phases.
  - Each phase notifies (phase, secondsLeft) from 10 down to 1. The engine then evaluates the snapshot once and the result goes to the result observer.
  - The nullable observers are modelled by whether they are installed. A `delivered` log records what they receive, and a ghost `trace` records every notification point.

Kotlin `Float` and `Double` values are modelled as exact reals. Every one of them comes
from integer pixel coordinates, areas or grey levels.

Some behaviour follows from the code but is easy to miss, and some lines need a reading; the model states each:

- **Equal areas count as downs.** The trend layer counts a pair of equal areas as a "down" move (`DecisionEngine.kt:56`).
  - Five or more candles of one common area therefore pass the trend layer, with 12 points for five.
  - Equal areas are never engulfing. Such a history is rejected as "Candle weak", not as "Market unstable", exactly when the last candle is not a hammer and its area is at most 200. Otherwise it is scored (`FlatAreasVerdict`; `FlatAreasRejectedAsWeakCandle` is the instance of area 10).
- **The accuracy never exceeds 80.** The four layers give at most 30 + 25 + 15 + 10. With five candles there are only four pairs, so the trend gives at most 12.
  - Areas 10, 20, 30, 40, 220, with the last candle at the wick extreme (location 15), therefore score 62, not the maximum 80 (`RisingAreasScoreSixtyTwo`).
  - `Evaluate` never exceeds 80, so any threshold above 80 never yields BUY or SELL (`HighThresholdNeverTrades`).
- **The history is not sorted across frames.** Only each frame's own contribution is sorted, so a later frame can add a candle to the left of the tail (`HistoryNotSortedAcrossFrames`).
- **`min` is not imported.** `DecisionEngine.kt:36` calls `min`, but the file imports only `max`. The model takes the evident meaning, clamping the sum to [0, 100]. On scored snapshots the clamp never changes the sum (`AccuracyBounds`).
- **The quality message is kept byte for byte.** Its dash is the mis-decoded sequence U+00E2 U+20AC U+201C, which is what the source file holds.
- **The blur test uses the mean.** It compares the mean of the Laplacian, not its variance, with 5.0.

## Model

| member | source | states |
|---|---|---|
| Candles.ShapeFilterInIntegers | app/src/main/java/com/example/candlescanner/CandleAnalyzer.kt:50-51 | the filter `height / max(1, width) > 1.5 && height > 20 && width > 4` accepts exactly the rectangles with 2·height > 3·width, height > 20 and width > 4 |
| Candles.MakeCandle | app/src/main/java/com/example/candlescanner/CandleAnalyzer.kt:52-66 | the candle's x lies inside the rectangle; its wick extent is the rectangle height (> 20); its body is 60% of that extent; its area is at least 105; it is bullish exactly when the centre grey level exceeds 127 |
| CandleAnalyzer.ExtractCandles | app/src/main/java/com/example/candlescanner/CandleAnalyzer.kt:46-69 | at most one candle per detection, each built from a rectangle; all detections accepted gives one candle each, none accepted gives no candles |
| CandleAnalyzer.ExtractCandlesMembers | app/src/main/java/com/example/candlescanner/CandleAnalyzer.kt:47-68 | every accepted detection yields its candle, and every candle is the candle of an accepted detection |
| CandleAnalyzer.ExtractCandlesConcat | app/src/main/java/com/example/candlescanner/CandleAnalyzer.kt:46-69 | the candles of two runs of detections are those of the first run followed by those of the second, so candles keep detection order |
| CandleAnalyzer.ExtractCandlesSingle | app/src/main/java/com/example/candlescanner/CandleAnalyzer.kt:48-68 | one detection yields exactly its candle when it passes the shape filter, and nothing otherwise |
| CandleAnalyzer.DetectCandles | app/src/main/java/com/example/candlescanner/CandleAnalyzer.kt:46-69 | the contour loop yields exactly `ExtractCandles` of the detections |
| CandleAnalyzer.SortByXSortsAndPermutes | app/src/main/java/com/example/candlescanner/CandleAnalyzer.kt:71 | `sortBy { it.x }` yields a list sorted by x that is a permutation of its input |
| CandleAnalyzer.InsertByXPermutes | app/src/main/java/com/example/candlescanner/CandleAnalyzer.kt:71 | inserting a candle into a list adds exactly that candle to its multiset |
| CandleAnalyzer.InsertByXSorted | app/src/main/java/com/example/candlescanner/CandleAnalyzer.kt:71 | inserting into a sorted list keeps it sorted by x |
| CandleAnalyzer.SortByXStable | app/src/main/java/com/example/candlescanner/CandleAnalyzer.kt:71 | the sort is stable: for every x, the candles with that x keep their input order |
| CandleAnalyzer.InsertByXStable | app/src/main/java/com/example/candlescanner/CandleAnalyzer.kt:71 | one insertion keeps, for every x, the relative order of the candles with that x |
| CandleAnalyzer.PushAppendsUnlessTailMatches | app/src/main/java/com/example/candlescanner/CandleAnalyzer.kt:75-78 | one push leaves the history unchanged when the tail has the candle's x, and otherwise appends the candle and drops the head once the size passes 30 |
| CandleAnalyzer.PushKeepsInvariant | app/src/main/java/com/example/candlescanner/CandleAnalyzer.kt:75-78 | a push keeps the history at most 30 long and without two neighbours sharing an x |
| CandleAnalyzer.PushAllKeepsInvariant | app/src/main/java/com/example/candlescanner/CandleAnalyzer.kt:72-80 | pushing a whole frame keeps the history invariant |
| CandleAnalyzer.WindowOfWindow | app/src/main/java/com/example/candlescanner/CandleAnalyzer.kt:77 | trimming to the last 30 and then appending and trimming again equals trimming once |
| CandleAnalyzer.PushAllIsWindow | app/src/main/java/com/example/candlescanner/CandleAnalyzer.kt:72-80 | pushing a frame equals keeping the last 30 of the old history followed by the frame's candles that survive the same-x test |
| CandleAnalyzer.KeptFromInput | app/src/main/java/com/example/candlescanner/CandleAnalyzer.kt:74-76 | every candle that survives the same-x test comes from the frame |
| CandleAnalyzer.KeptFromSorted | app/src/main/java/com/example/candlescanner/CandleAnalyzer.kt:71-76 | on sorted input the surviving candles have strictly increasing x, and the first differs from the tail's x |
| CandleAnalyzer.FrameAddsIncreasingRun | app/src/main/java/com/example/candlescanner/CandleAnalyzer.kt:71-80 | a frame adds a run of candles with strictly increasing x drawn from the frame, and the history still has no neighbours sharing an x |
| CandleAnalyzer.HistoryNotSortedAcrossFrames | app/src/main/java/com/example/candlescanner/CandleAnalyzer.kt:21-82 | two frames, with candles at x 50 and then x 10, leave a history not sorted by x |
| CandleAnalyzer.CandleAnalyzer.constructor | app/src/main/java/com/example/candlescanner/CandleAnalyzer.kt:21 | the history starts empty |
| CandleAnalyzer.CandleAnalyzer.Remember | app/src/main/java/com/example/candlescanner/CandleAnalyzer.kt:75-78 | the history becomes `Push` of the old history and the candle, keeping the invariant |
| CandleAnalyzer.QualityGateThresholds | app/src/main/java/com/example/candlescanner/CandleAnalyzer.kt:89-102 | the quality gate `IsImageGood` passes exactly when the Laplacian mean is at least 5.0 and the mean intensity at least 40; a frame at least as sharp and as bright as a passing one also passes |
| CandleAnalyzer.CandleAnalyzer.Analyze | app/src/main/java/com/example/candlescanner/CandleAnalyzer.kt:23-87 | no image gives no snapshot; a frame failing the blur or brightness gate gives the quality message with no candles; otherwise the history becomes `PushAll` of the old history and the sorted extracted candles, and the snapshot lists the history with no message. In every case the history stays at most 30 long with no neighbours sharing an x |
| DecisionEngine.TrendScore | app/src/main/java/com/example/candlescanner/DecisionEngine.kt:48-61 | the trend score is a multiple of 3 between 0 and 30 |
| DecisionEngine.CheckTrend | app/src/main/java/com/example/candlescanner/DecisionEngine.kt:48-61 | the counting loop returns `TrendScore` of the candles |
| DecisionEngine.UpsPlusDowns | app/src/main/java/com/example/candlescanner/DecisionEngine.kt:55-57 | every adjacent pair is counted once, as an up or as a down |
| DecisionEngine.FlatAreasCountAsDowns | app/src/main/java/com/example/candlescanner/DecisionEngine.kt:56 | with constant areas there are no ups and every pair is a down |
| DecisionEngine.RisingAreasCountAsUps | app/src/main/java/com/example/candlescanner/DecisionEngine.kt:56 | with strictly rising areas every pair is an up |
| DecisionEngine.TrendBoundedByLength | app/src/main/java/com/example/candlescanner/DecisionEngine.kt:55-60 | the trend score is at most three points per pair |
| DecisionEngine.CheckPattern | app/src/main/java/com/example/candlescanner/DecisionEngine.kt:63-82 | the pattern passes exactly with score 25, 20 or 18 and reason "Pattern OK"; otherwise it fails with score 0 and "Candle weak"; a single candle fails; engulfing (area > 1.2 × previous) gives 25; a hammer that is not engulfing gives 20; a candle that is neither engulfing nor a hammer scores 18 exactly when its area exceeds 200 and otherwise the pattern fails (score 18 always means no hammer and area > 200) |
| DecisionEngine.RectangleCandleIsNoHammer | app/src/main/java/com/example/candlescanner/CandleAnalyzer.kt:55-57 | a candle built from a rectangle is never a hammer, since its body is 60% of its extent |
| DecisionEngine.RectangleHistoryPatternScores | app/src/main/java/com/example/candlescanner/DecisionEngine.kt:70-78 | when the last candle comes from a rectangle, the pattern score is 25, 18 or 0 |
| DecisionEngine.MaxOf | app/src/main/java/com/example/candlescanner/DecisionEngine.kt:90 | `maxOrNull` of a non-empty list is an element of it, not below any element |
| DecisionEngine.MinOf | app/src/main/java/com/example/candlescanner/DecisionEngine.kt:91 | `minOrNull` of a non-empty list is an element of it, not above any element |
| DecisionEngine.CheckLocation | app/src/main/java/com/example/candlescanner/DecisionEngine.kt:84-99 | a single candle scores 0; otherwise the location score is 5 or 15 |
| DecisionEngine.LocationNearExtreme | app/src/main/java/com/example/candlescanner/DecisionEngine.kt:88-98 | the location score is 15 exactly when every wick top is less than 10 beyond the last candle's top, or every wick bottom is less than 10 short of the last candle's bottom; otherwise it is 5 |
| DecisionEngine.LastAtExtremeScoresHigh | app/src/main/java/com/example/candlescanner/DecisionEngine.kt:92-96 | a last candle holding the largest wickTop value or the smallest wickBottom value scores 15 (y grows downwards) |
| DecisionEngine.Evaluate | app/src/main/java/com/example/candlescanner/DecisionEngine.kt:13-46 | the alert is raised exactly for BUY and SELL, and only when the accuracy meets the threshold; the verdict is never WAIT; the accuracy lies in 0..80 |
| DecisionEngine.InputGate | app/src/main/java/com/example/candlescanner/DecisionEngine.kt:14-19 | a snapshot message is returned as NO_TRADE with accuracy 0 and that very text; fewer than 5 candles give "insufficient candles" |
| DecisionEngine.EarlyExitsReportZero | app/src/main/java/com/example/candlescanner/DecisionEngine.kt:14-38 | every exit before scoring reports accuracy 0, and a scored snapshot has accuracy at least 45 |
| DecisionEngine.TrendLayerRejects | app/src/main/java/com/example/candlescanner/DecisionEngine.kt:22-23 | a trend score below 10 gives NO_TRADE, 0, "Market unstable" |
| DecisionEngine.PatternLayerRejects | app/src/main/java/com/example/candlescanner/DecisionEngine.kt:26-27 | a failing pattern gives NO_TRADE, 0, "Candle weak" |
| DecisionEngine.TrendGate | app/src/main/java/com/example/candlescanner/DecisionEngine.kt:23 | the trend gate passes exactly when one direction leads by four moves or more, and then the trend score is at least 12 |
| DecisionEngine.AccuracyBounds | app/src/main/java/com/example/candlescanner/DecisionEngine.kt:34-36 | on a scored snapshot the accuracy is the unclamped sum of the four layers, between 45 and 80 |
| DecisionEngine.BelowThresholdRule | app/src/main/java/com/example/candlescanner/DecisionEngine.kt:38 | below the threshold the verdict is NO_TRADE carrying the accuracy and "accuracy A% (< T%)", without alert |
| DecisionEngine.AtThresholdRule | app/src/main/java/com/example/candlescanner/DecisionEngine.kt:40-45 | at or above the threshold the verdict is BUY for a bullish last candle and SELL otherwise, with "Bullish/Bearish pattern near zone" and the alert raised |
| DecisionEngine.HighThresholdNeverTrades | app/src/main/java/com/example/candlescanner/DecisionEngine.kt:13-46 | a threshold above 80 always gives NO_TRADE without alert |
| DecisionEngine.MessageOverridesCandles | app/src/main/java/com/example/candlescanner/DecisionEngine.kt:14-16 | a message wins over any candle list |
| DecisionEngine.FlatAreasRejectedAsWeakCandle | app/src/main/java/com/example/candlescanner/DecisionEngine.kt:55-57 | five bullish candles of equal area 10 give trend 12 and NO_TRADE, 0, "Candle weak", not "Market unstable" |
| DecisionEngine.FlatAreasVerdict | app/src/main/java/com/example/candlescanner/DecisionEngine.kt:21-27 | for at least five candles of one common non-negative area, the trend score is 3 points per pair (at most 30); the snapshot is rejected as NO_TRADE, 0, "Candle weak" when the last candle is not a hammer and has area at most 200, and it reaches scoring exactly when the last candle is a hammer or has area above 200 |
| DecisionEngine.RisingAreasScoreSixtyTwo | app/src/main/java/com/example/candlescanner/DecisionEngine.kt:36-45 | areas 10, 20, 30, 40, 220 with all candles bullish and sharing their wicks, so the last is at the wick extreme (location 15), score 62: NO_TRADE at threshold 80, BUY at threshold 62 |
| DecisionPipeline.Countdown | app/src/main/java/com/example/candlescanner/DecisionPipeline.kt:18-21 | one phase notifies (phase, 10 - i) at step i, ten times |
| DecisionPipeline.Phases | app/src/main/java/com/example/candlescanner/DecisionPipeline.kt:17-39 | phases 1 to p notify 10·p times |
| DecisionPipeline.PhasesLayout | app/src/main/java/com/example/candlescanner/DecisionPipeline.kt:17-39 | the i-th progress notification is phase i / 10 + 1 with 10 - i % 10 seconds left |
| DecisionPipeline.ScheduleShape | app/src/main/java/com/example/candlescanner/DecisionPipeline.kt:15-44 | a run notifies 41 events: 40 progress events in the layout above, then the verdict of `Evaluate` on the fixed snapshot and threshold, which is the only verdict |
| DecisionPipeline.ProgressOrder | app/src/main/java/com/example/candlescanner/DecisionPipeline.kt:17-39 | progress never goes back a phase, and within a phase the seconds left strictly decrease |
| DecisionPipeline.DeliveredAppend | app/src/main/java/com/example/candlescanner/DecisionPipeline.kt:19-42 | what the observers receive from two event runs is what they receive from each, in order |
| DecisionPipeline.DeliveredProgressOnly | app/src/main/java/com/example/candlescanner/DecisionPipeline.kt:19 | the update observer receives every progress event exactly when installed |
| DecisionPipeline.DeliveredOfProgress | app/src/main/java/com/example/candlescanner/DecisionPipeline.kt:19 | a run of progress events reaches only the update observer, all of it when installed |
| DecisionPipeline.NullObserversOnlySuppress | app/src/main/java/com/example/candlescanner/DecisionPipeline.kt:19-42 | a missing observer only suppresses its own notifications: the update observer gets all 40 progress events when installed, and the result observer gets the verdict when installed |
| DecisionPipeline.DecisionPipeline.constructor | app/src/main/java/com/example/candlescanner/DecisionPipeline.kt:8-11 | the pipeline holds the snapshot and threshold (default 80), with no observers installed |
| DecisionPipeline.DecisionPipeline.Notify | app/src/main/java/com/example/candlescanner/DecisionPipeline.kt:19 | a notification reaches the matching observer only if installed |
| DecisionPipeline.DecisionPipeline.RunPhase | app/src/main/java/com/example/candlescanner/DecisionPipeline.kt:18-21 | one phase's loop notifies `Countdown(phase, 10)` |
| DecisionPipeline.DecisionPipeline.Start | app/src/main/java/com/example/candlescanner/DecisionPipeline.kt:15-44 | a run adds exactly the schedule to the trace and its observed part to the deliveries, calls the engine exactly once, and leaves the observers as they were |

## Left out

- Image processing is not modelled: the YUV-to-bitmap conversion, grey conversion, Gaussian blur, Canny, contour search, bounding rectangles, Laplacian and means (`toBitmap`, OpenCV). A frame is given as the two means and the detected rectangles, each with its sampled centre grey level.
- Exceptions thrown inside `analyze`, which the source logs before returning null, are not modelled. A frame always either fails the gate or yields a snapshot.
- The image rotation that `analyze` reads is not modelled, because nothing uses it.
- Floating-point rounding, NaN, and the Float narrowing of the body and wick values are not modelled. Reals are exact.
- The 32-bit overflow of `x + width / 2` and `width * height` is not modelled. Integers are unbounded.
- Coroutine scheduling, the one-second delays, cancellation and the main dispatcher are not modelled. The pipeline runs its countdowns as loops, and reassigning a callback in the middle of a run is not modelled.
- The callbacks themselves are not modelled. Each is kept as whether it is installed, together with a log of what it receives.
- DecisionEngine.Evaluate: the reason is a `Reason` value rendered by `Text`. The model does not prove the decimal rendering of the accuracy and threshold correct.
- `MainActivity`, `CandleApplication`, the stored preferences and the UI are not part of this model.
