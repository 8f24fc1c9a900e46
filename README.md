# iCUrHealth analysis core in Dafny

iCUrHealth is an iOS app. It reads two weeks of Apple Health data and shows an "at a glance" screen. That screen holds a trend analysis of four metrics and a table of Pearson correlations between eight metrics. This project models the logic behind that screen:

- how `HealthDataFetcher` assembles the fourteen daily `HealthData` records;
- the trend pass that compares the first and second half of the records (Steps, Sleep, Exercise Minutes, Screen Time) and ranks each comparison;
- the correlation pass over every pair of the eight metric names;
- the trend-series helpers of `HealthChart`;
- the route helpers of `WorkoutMapView`.

Modules:

- `Optional` is the Option type.
- `SwiftNumerics` models Swift's `Int(Double)`, which truncates toward zero. It also models `Int` division, which truncates, together with `abs` and `max`.
- `HealthRecords` holds the record, the per-day quantity and sleep fetch loops, and the record assembly with its index-wise merge.
- `TrendAnalysis` holds the trend pass. Each block is a specification function plus a method with the source's loops and if-chains, proved equal to it.
- `CorrelationAnalysis` holds `getFormattedSeriesLabel`, the key-path switches, the filter and compactMap, `pearsonCorrelation`, and the nested pair loop.
- `GlanceView` is the `DataAtAGlance` screen state and its `onAppear` update.
- `HealthChart` is `generateTrendData` and `combineTrend`.
- `WorkoutMap` is `regionForRoute`, `MapOverlay.path` as a list of path operations, and `WorkoutViewModel`'s `didSet`.

Metric values are `Option<real>`. The analysis truncates each value with `Int(...)`, and the sleep test `!= 0` looks at the Double before truncation, so a sample of 0.5 hours counts as a night but adds 0 to the total. Division is truncating integer division. The code traps in several places: an integer division by a zero count, a division by a sleep baseline of 0, and the force-unwrap of `sleepHours` in the exercise block. Each of these is a precondition, collected in `TrendAnalysis.Analysable`.

The source's quirks are kept as written:

- the Steps rank is never set;
- the exercise average adds the recent half's `sleepHours` instead of its exercise minutes;
- a screen-time decrease is ranked -1;
- with an odd number of records the middle one belongs to neither half.

`prefix(n/2)` and `suffix(n/2)` never overlap; for odd n the middle record is in neither half.

`pearsonCorrelation` is kept symbolic: a coefficient is `numerator / sqrt(radicand)`, with the sums taken over exact reals. As in the source, one `n`, the count of `xs`, serves both spreads; the pass only ever passes series of equal length. The source's nil test, `denominator == 0`, is decided in the model as "the exact radicand is 0". The source computes it in Double, so the reported pairs can differ where rounding matters (see "## Left out").

## Model

| member | source | states |
|---|---|---|
| SwiftNumerics.Trunc | iCUrHealth/DataAtAGlance.swift:154 | `Int(x)` is the whole part of x toward zero: between x-1 and x for positive x, between x and x+1 for negative x |
| SwiftNumerics.Quot | iCUrHealth/DataAtAGlance.swift:166-169 | Swift `Int` division truncates: it agrees with Euclidean division for non-negative operands, is the negated quotient of magnitudes for a negative dividend, and takes the dividend's sign for a positive divisor |
| HealthRecords.DailyQuantities | iCUrHealth/HealthData.swift:88-101 | one value per enumerated day, none omitted: the day's sum when there is one, otherwise 0 |
| HealthRecords.LastTwoWeeksSleep | iCUrHealth/HealthData.swift:144-182 | the sleep fetch throws exactly when some night's query throws; otherwise it returns 14 values, day -14 first: 0 for a night without a 3 PM window, else the night's summed sample durations in hours |
| HealthRecords.Created | iCUrHealth/HealthData.swift:199-206 | at most one record per day, and each created record is blank: only its date and id are set, every metric nil |
| HealthRecords.CreatedEveryDay | iCUrHealth/HealthData.swift:199-206 | the loop creates at most one record per day, creates all 14 exactly when the calendar computes every date, and then record k carries day k+1's date and id |
| HealthRecords.CreateRecords | iCUrHealth/HealthData.swift:197-206 | the appending loop, with its calendar guard that skips a day, builds exactly the records `Created` describes |
| HealthRecords.Reversed | iCUrHealth/HealthData.swift:208 | `reversed()` keeps the length and puts element k at position n-1-k |
| HealthRecords.FetchAndProcessHealthData | iCUrHealth/HealthData.swift:195-230 | 14 records, oldest day first; record d keeps the date and id created for day 14-d; its steps, sleep, active energy, exercise and weight are element d of the matching fetch, nil on every day when that fetch threw; heart rate, daylight and screen time stay nil |
| TrendAnalysis.Initial | iCUrHealth/DataAtAGlance.swift:140-143 | `prefix(n/2)` holds n/2 records |
| TrendAnalysis.Recent | iCUrHealth/DataAtAGlance.swift:140-144 | `suffix(n/2)` holds n/2 records |
| TrendAnalysis.SplitHalves | iCUrHealth/DataAtAGlance.swift:140-144 | both halves hold n/2 records: the first n/2 and the last n/2 records; they never overlap, and for odd n the middle record is in neither |
| TrendAnalysis.PresentCountZero | iCUrHealth/DataAtAGlance.swift:152-164 | a half's count of present values is at most its length, and is 0 exactly when the metric is absent on every day, which is when the code divides by zero |
| TrendAnalysis.PresentTotalNonNegative | iCUrHealth/DataAtAGlance.swift:152-164 | with no negative sample, the truncated total is not negative |
| TrendAnalysis.UniformTotal | iCUrHealth/DataAtAGlance.swift:152-164 | when every day carries the whole value v, the total is days*v and every day is counted |
| TrendAnalysis.FlooredAverage | iCUrHealth/DataAtAGlance.swift:166 | `max(total/count, 1)` is at least 1, so the following percentage never divides by zero, and at least the truncated average; it is one of the two, so it is their maximum |
| TrendAnalysis.Compare | iCUrHealth/DataAtAGlance.swift:169-181 | the trend is up exactly when the percentage exceeds 105 and then carries percentage-100; it is down exactly below 95 and level exactly within 95..105 |
| TrendAnalysis.StepsAnalysis | iCUrHealth/DataAtAGlance.swift:166-183 | Steps prediction: the rank is always 0; the narrative is Higher(p-100) exactly when p > 105, Lower exactly when p < 95, Similar exactly within the band; p is recent average * 100 / floored initial average |
| TrendAnalysis.SleepCountBySetting | iCUrHealth/DataAtAGlance.swift:193-213 | with countZeroSleepAsNoSleep every day is counted; without it no more days are counted, and all days exactly when every day has non-zero sleep |
| TrendAnalysis.SleepCountCoversTotal | iCUrHealth/DataAtAGlance.swift:193-213 | a non-zero sleep total implies at least one counted night under either setting |
| TrendAnalysis.ReportedSleepCounted | iCUrHealth/DataAtAGlance.swift:214-220 | once the Sleep block runs, both counts are at least 1, so only the baseline division can trap |
| TrendAnalysis.NoSleepTotalZero | iCUrHealth/DataAtAGlance.swift:193-202 | absent and zero samples add nothing: without a non-zero sample the total is 0 |
| TrendAnalysis.SleepAnalysis | iCUrHealth/DataAtAGlance.swift:214-238 | no Sleep prediction exactly when either half's total is 0; otherwise the rank is -1 exactly when p < 95, with FewerHours(init-rece); Higher(p-100) above 105; Similar within the band; rank 0 for both |
| TrendAnalysis.ExerciseAnalysis | iCUrHealth/DataAtAGlance.swift:242-274 | the narrative carries the shared-accumulator average; rank -1 exactly below 20, 1 exactly above 60, 0 otherwise |
| TrendAnalysis.ExerciseAverage | iCUrHealth/DataAtAGlance.swift:245-263 | the average is the truncated quotient of the shared total by the shared count: for a non-negative total, average*count <= total < average*count + count |
| TrendAnalysis.ExerciseAverageCountsRecentSleep | iCUrHealth/DataAtAGlance.swift:254-263 | the recent half adds sleep hours: 30 initial exercise minutes and a recent day with 30 minutes and 8 hours of sleep average to 19, ranked -1 |
| TrendAnalysis.ScreenTimeAnalysis | iCUrHealth/DataAtAGlance.swift:300-317 | Screen Time: rank -1 exactly when p < 95, with FewerHours(init-rece); an increase Higher(p-100) and a similar value both keep rank 0 |
| TrendAnalysis.Predictions | iCUrHealth/DataAtAGlance.swift:183-317 | 3 or 4 predictions; 4 exactly when the Sleep block runs; order Steps, Sleep, Exercise Minutes, Screen Time; every rank within -1..1 |
| TrendAnalysis.TallyPresent | iCUrHealth/DataAtAGlance.swift:152-164 | the accumulator loop computes the truncated total and the count of present values of one half |
| TrendAnalysis.TallySleep | iCUrHealth/DataAtAGlance.swift:193-213 | the sleep loop computes the sleep total and the setting-dependent count |
| TrendAnalysis.TallyRecentExercise | iCUrHealth/DataAtAGlance.swift:254-261 | the recent exercise loop adds Int(sleepHours) and 1 on each day with exercise data to the carried accumulators |
| TrendAnalysis.PredictSteps | iCUrHealth/DataAtAGlance.swift:146-183 | the Steps block produces StepsAnalysis |
| TrendAnalysis.PredictSleep | iCUrHealth/DataAtAGlance.swift:187-238 | the Sleep block produces SleepAnalysis, appending nothing when it is None |
| TrendAnalysis.PredictExercise | iCUrHealth/DataAtAGlance.swift:242-274 | the Exercise block produces ExerciseAnalysis |
| TrendAnalysis.PredictScreenTime | iCUrHealth/DataAtAGlance.swift:280-317 | the Screen Time block produces ScreenTimeAnalysis |
| TrendAnalysis.PredictFirstThree | iCUrHealth/DataAtAGlance.swift:146-274 | starting from an empty list, the Steps, Sleep and Exercise blocks append Steps, Sleep when it is reported, and Exercise Minutes |
| TrendAnalysis.AnalyseGuarded | iCUrHealth/DataAtAGlance.swift:140-317 | the pass with the guarded Screen Time block appends exactly GuardedPredictions(records, setting) |
| TrendAnalysis.Analyse | iCUrHealth/DataAtAGlance.swift:140-317 | starting from an empty list, the pass appends exactly Predictions(records, setting) |
| TrendAnalysis.StepsIncreaseByHalf | iCUrHealth/DataAtAGlance.swift:152-181 | a week of 100 steps a day followed by a week of 150 gives Higher(50) with rank 0 |
| TrendAnalysis.NoSleepNoSleepPrediction | iCUrHealth/DataAtAGlance.swift:193-238 | without any sleep sample there are 3 predictions and none is Sleep |
| TrendAnalysis.NoScreenTimeNotAnalysable | iCUrHealth/DataAtAGlance.swift:286-300 | with no screen-time sample on any day the pass always traps, dividing by the initial half's count of 0 |
| TrendAnalysis.GuardedScreenTimeAnalysis | iCUrHealth/DataAtAGlance.swift:280-317 | the Screen Time block behind a guard: no prediction exactly when either half has no screen-time sample, otherwise the block's own prediction |
| TrendAnalysis.GuardedPredictions | iCUrHealth/DataAtAGlance.swift:183-317 | the pass with the guarded Screen Time block: 2 to 4 predictions, Steps first, every rank within -1..1 |
| TrendAnalysis.GuardedPredictionsAgree | iCUrHealth/DataAtAGlance.swift:183-317 | wherever the source's pass does not trap, the guarded pass runs too and gives the same predictions |
| TrendAnalysis.GuardedWithoutScreenTime | iCUrHealth/DataAtAGlance.swift:280-317 | with no screen-time sample the guarded pass ends with Exercise Minutes and has no Screen Time entry |
| TrendAnalysis.TooFewRecords | iCUrHealth/DataAtAGlance.swift:140-167 | fewer than two records always trap: both halves are empty |
| CorrelationAnalysis.NameIndexOfName | iCUrHealth/DataAtAGlance.swift:321 | the eight property names are distinct: each is found at its own position |
| CorrelationAnalysis.NameIndexFinds | iCUrHealth/DataAtAGlance.swift:321 | a name's position is -1 exactly when it is not one of the eight, and otherwise the name is listed there |
| CorrelationAnalysis.KeyPathSelects | iCUrHealth/DataAtAGlance.swift:326-369 | the switch maps property name i to metric i, and any other name to the default |
| CorrelationAnalysis.KeyPath | iCUrHealth/DataAtAGlance.swift:329-369 | the key-path switch; its properties are stated by KeyPathSelects and KeyPathsDistinct |
| CorrelationAnalysis.FormattedSeriesLabel | iCUrHealth/DataAtAGlance.swift:18-39 | the label is empty exactly for a name outside the eight property names |
| CorrelationAnalysis.LabelsDistinct | iCUrHealth/DataAtAGlance.swift:18-39 | distinct property names get distinct labels |
| CorrelationAnalysis.KeyPathsDistinct | iCUrHealth/DataAtAGlance.swift:326-369 | every property name has its case, so the default never applies and distinct names select distinct fields |
| CorrelationAnalysis.FilteredKeepsPairedDays | iCUrHealth/DataAtAGlance.swift:372 | the filter keeps exactly the days on which both metrics are present, in their original order: `KeptIndices` lists their positions, strictly increasing, covering every such day, and the k-th kept day is the day at the k-th position |
| CorrelationAnalysis.FilteredInOrder | iCUrHealth/DataAtAGlance.swift:372 | the order half of the above: the kept days are the days at strictly increasing positions, one for each day with both metrics present |
| CorrelationAnalysis.FilteredMembership | iCUrHealth/DataAtAGlance.swift:372 | the membership half: no more days are kept than given, every kept day has both metrics, and a day is kept exactly when it has both |
| CorrelationAnalysis.Filtered | iCUrHealth/DataAtAGlance.swift:372 | the filter; its properties are stated by FilteredKeepsPairedDays and FilteredSymmetric |
| CorrelationAnalysis.CompactMap | iCUrHealth/DataAtAGlance.swift:373-374 | the compactMap; its properties are stated by CompactMapAllPresent and PairedSeries |
| CorrelationAnalysis.CompactMapAllPresent | iCUrHealth/DataAtAGlance.swift:373-374 | on days where the metric is present, compactMap keeps one value per day, in order |
| CorrelationAnalysis.PairedSeries | iCUrHealth/DataAtAGlance.swift:372-374 | xs and ys have equal length, the number of positions `KeptIndices` lists (the days with both metrics present), and their k-th entries are the two values of the same day |
| CorrelationAnalysis.FilteredSymmetric | iCUrHealth/DataAtAGlance.swift:372 | the filter does not depend on which metric is first |
| CorrelationAnalysis.Pearson | iCUrHealth/DataAtAGlance.swift:57-74 | `pearsonCorrelation` over exact reals; its properties are stated by PearsonDefinedIffBothVary, PearsonSymmetric and ConstantSeriesUndefined |
| CorrelationAnalysis.PearsonDefinedIffBothVary | iCUrHealth/DataAtAGlance.swift:57-74 | the coefficient is nil exactly when the denominator is 0, which is when either series has zero spread (n*sum(x^2) - sum(x)^2 == 0), with n the count of xs for both series |
| CorrelationAnalysis.PearsonCountsFirstSeries | iCUrHealth/DataAtAGlance.swift:63-66 | the one n is the count of xs: [1, 2] against [1, 1, 0] has no coefficient, [1, 2, 4] against the constant [3, 3] has one |
| CorrelationAnalysis.SumOfProductsSymmetric | iCUrHealth/DataAtAGlance.swift:62 | the zipped sum of products does not depend on the order of the two series |
| CorrelationAnalysis.PearsonSymmetric | iCUrHealth/DataAtAGlance.swift:57-74 | swapping two equal-length series leaves the coefficient and its definedness unchanged |
| CorrelationAnalysis.ConstantSums | iCUrHealth/DataAtAGlance.swift:58-61 | for a constant series c the sum is n*c and the sum of squares n*c*c |
| CorrelationAnalysis.ConstantSeriesUndefined | iCUrHealth/DataAtAGlance.swift:57-74 | a constant series, including any series of fewer than two values, has no coefficient as xs, and none as ys when xs has as many values |
| CorrelationAnalysis.Correlate | iCUrHealth/DataAtAGlance.swift:321-384 | the nested loop produces exactly Correlations(records) |
| CorrelationAnalysis.CorrelateRow | iCUrHealth/DataAtAGlance.swift:325-381 | one pass of the inner loop appends the entries of row i, for j from i+1 to 7 in order |
| CorrelationAnalysis.CorrelationsAtMost28 | iCUrHealth/DataAtAGlance.swift:324-382 | at most one entry per pair i<j, so at most 28 entries |
| CorrelationAnalysis.CorrelationsSound | iCUrHealth/DataAtAGlance.swift:324-382 | every entry names a pair i<j of property names and carries that pair's non-nil coefficient |
| CorrelationAnalysis.CorrelationsComplete | iCUrHealth/DataAtAGlance.swift:324-382 | every pair i<j whose coefficient is non-nil has its entry |
| CorrelationAnalysis.CorrelationsInPairOrder | iCUrHealth/DataAtAGlance.swift:324-325 | entries come in strictly increasing lexicographic pair order, so no pair is reported twice |
| CorrelationAnalysis.ConstantMetricUnreported | iCUrHealth/DataAtAGlance.swift:372-380 | when metric i is constant on every day it is present, pair (i, j) is never reported |
| CorrelationAnalysis.PairOrderIrrelevant | iCUrHealth/DataAtAGlance.swift:372-377 | the coefficient of two metrics does not depend on which one is x |
| CorrelationAnalysis.RowSound | iCUrHealth/DataAtAGlance.swift:325-381 | each entry of row i is reported for a pair (i, j) |
| CorrelationAnalysis.RowComplete | iCUrHealth/DataAtAGlance.swift:325-381 | every defined pair (i, j) already visited in row i has its entry |
| CorrelationAnalysis.RowInPairOrder | iCUrHealth/DataAtAGlance.swift:325 | row i lists its pairs in increasing j |
| GlanceView.DataAtAGlance.OnAppear | iCUrHealth/DataAtAGlance.swift:134-384 | predictions are cleared; after a successful fetch of records on which the pass does not trap, the screen shows them with exactly their predictions (3 or 4) and correlations (at most 28); when the fetch throws, predictions stay empty and nothing else changes. Records from `fetchAndProcessHealthData` never meet that condition (see "## Findings") |
| GlanceView.DataAtAGlance.OnAppearGuarded | iCUrHealth/DataAtAGlance.swift:134-384 | `onAppear` with the guarded pass: after a successful fetch the screen shows the records, their guarded predictions (2 to 4) and their correlations (at most 28); when the fetch throws, predictions stay empty and nothing else changes |
| GlanceView.FetchForGlance | iCUrHealth/HealthData.swift:195-230 | the 14 records `fetchAndProcessHealthData` builds never satisfy the unguarded pass's condition, under either setting |
| GlanceView.DataAtAGlance.constructor | iCUrHealth/DataAtAGlance.swift:77-80 | records, predictions and correlations start empty; the setting is the stored one |
| HealthChart.GenerateTrendData | iCUrHealth/HealthChart.swift:11-17 | one point per chart point, empty for empty: point k is tagged "trend", has chart point k's date and the average as its value |
| HealthChart.CombineTrend | iCUrHealth/HealthChart.swift:19-21 | the result has both lengths summed, with the chart unchanged first and the trend after it |
| HealthChart.CombinedTrendSeparates | iCUrHealth/HealthChart.swift:11-21 | when no chart point is tagged "trend", the combined series' "trend" points are exactly the trend and every other tag's points are the chart's |
| WorkoutMap.RegionForRoute | iCUrHealth/WorkoutMapView.swift:103-114 | fewer than 2 coordinates give the default region; otherwise the centre is coordinate n/2-1, which lies in the first half, and the span is 0.01 by 0.01 |
| WorkoutMap.RegionIgnoresSecondHalf | iCUrHealth/WorkoutMapView.swift:108-113 | two routes of equal length and equal first half get the same region |
| WorkoutMap.OverlayPath | iCUrHealth/WorkoutMapView.swift:120-139 | empty coordinates give an empty path; otherwise one move to the first coordinate followed by n-1 lines, operation k drawing to coordinate k |
| WorkoutMap.WorkoutViewModel.constructor | iCUrHealth/WorkoutMapView.swift:17-24 | no route and no coordinates, in sync |
| WorkoutMap.WorkoutViewModel.SetWorkoutRoute | iCUrHealth/WorkoutMapView.swift:19-23 | setting a route publishes its coordinates, setting nil publishes none; the two stay in sync |

## Left out

- HealthKit queries and authorization, the calendar and `DateFormatter`. The quantity statistics, sleep samples, computed dates and fetched arrays are parameters. `requestAuthorization` throwing is not modelled.
- Concurrency: `Task`, `async let`, callbacks and main-queue dispatch. Each screen update is modelled as one sequential step.
- UUIDs are random. Each record's id is a parameter, and `CorrelationEntry` drops its id.
- HealthRecords.FetchAndProcessHealthData: requires that the calendar computes every date and that each successful fetch has at least 14 values. Otherwise the merge indexes out of bounds and traps.
- `HealthData` as shown lacks `minutesInDaylight`, `screenTimeSocialMedia` and `screenTimeTotal`, which the analysis reads. They are modelled as optional fields that the fetcher never fills.
- TrendAnalysis.Analyse: 64-bit overflow of the accumulators and the range trap of `Int(Double)` on non-finite or huge values are not modelled. Integers are unbounded.
- CorrelationAnalysis.Pearson: the floating-point value, `sqrt`/`pow` rounding and the bound to [-1, 1] are not modelled. The coefficient is kept as numerator and radicand over exact reals. So which pairs are reported can differ from the Double computation: a constant series whose value is not a binary fraction can round to a non-zero (or negative, giving NaN) radicand and be reported, and a small spread such as [1e8, 1e8+1] can round to a zero radicand and be dropped.
- HealthRecords.LastTwoWeeksSleep: the seconds asleep and `secondsAsleep / 3600` are computed over exact reals, not in Double.
- The correlation colour bands and `pValueString` formatting are presentation.
- The narrative text is modelled as a case with its numbers. The typo "simimlar" and the formatting are left out.
- GlanceView.DataAtAGlance.OnAppear: the intermediate states while predictions are appended one by one, and the `print` calls, are not modelled.
- The `chartData` declaration is not part of this model. A point has only the three fields the helpers use, and its date is a number.
- The `MapOverlay` projection of a coordinate onto the drawing rectangle is a function parameter. Its floating-point formulas are left out.
- `WorkoutViewModel.workout`, its health store and `fetchAndProcessWorkoutRoute` are HealthKit calls. Assigning `workoutRouteCoordinates` directly, which would break the sync, is not modelled.
- SwiftUI view bodies, `userChart.getTrend`, and the Python telephony and LLM servers are outside the core.

## Findings

| source | as written | input that shows it | evidently intended | confidence | as-written member | corrected member |
|---|---|---|---|---|---|---|
| iCUrHealth/DataAtAGlance.swift:280-300 | the Screen Time block divides `initial_total / initial_count` with no guard, and `fetchAndProcessHealthData` never sets `screenTimeTotal` (HealthData.swift:221-227), so every successfully fetched list traps there | the 14 records of any successful fetch: each has `screenTimeTotal == nil`, so `initial_count == 0` | skip the Screen Time prediction when a half has no screen-time sample, as the Sleep block does | not executed | TrendAnalysis.NoScreenTimeNotAnalysable | TrendAnalysis.GuardedScreenTimeAnalysis |
