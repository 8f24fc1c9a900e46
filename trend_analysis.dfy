/**
 * The trend analysis that `DataAtAGlance` runs when it appears
 * (iCUrHealth/DataAtAGlance.swift, lines 140-317). The records are split
 * into an `initial` and a `recent` half, and four metrics are compared:
 * Steps, Sleep, Exercise Minutes and Screen Time. Each comparison yields an
 * `Analysis` whose narrative is kept as a case with its numbers, not as
 * formatted text.
 *
 * The source's behaviour is kept as written, including its quirks. The
 * Steps rank is never set. The exercise average adds the recent half's
 * sleep hours. A screen-time decrease gets rank -1. Every place where the
 * source traps (division by zero, a nil force-unwrap) is a precondition,
 * collected in `Analysable`.
 */
module TrendAnalysis {
  import opened Optional
  import opened SwiftNumerics
  import opened HealthRecords

  /** The text of `Analysis.prediction`, as a case and its interpolated numbers. */
  datatype Narrative =
    | Higher(percent: int)          // "... higher compared to the week before by (percent)%"
    | Lower                         // "Your steps average ... has been lower compared to the week before"
    | FewerHours(hours: int)        // "... (hours) hours fewer compared to last week" (sleep, screen time)
    | Similar                       // "... relatively similar compared to the week before."
    | DailyExercise(minutes: int)   // "You have spent an average of (minutes) minutes exercising ..."

  /** `Analysis`: rank 1 is good, 0 neutral, -1 bad. */
  datatype Analysis = Analysis(image: Option<string>, prediction: Narrative, category: string, rank: int)

  // ---------------------------------------------------------------------
  // The split (lines 140-144)

  /** `healthData.prefix(splitNum)`. */
  function Initial(records: seq<HealthData>): (initial: seq<HealthData>)
    ensures |initial| == |records| / 2
  {
    records[..|records| / 2]
  }

  /** `healthData.suffix(splitNum)`. */
  function Recent(records: seq<HealthData>): (recent: seq<HealthData>)
    ensures |recent| == |records| / 2
  {
    records[|records| - |records| / 2..]
  }

  /**
   * Both halves hold N/2 records: `initial` the first ones and `recent` the
   * last ones. They never share a position. When N is odd, the middle record
   * is in neither.
   */
  lemma SplitHalves(records: seq<HealthData>)
    ensures |Initial(records)| == |Recent(records)| == |records| / 2
    ensures forall k :: 0 <= k < |records| / 2 ==>
      Initial(records)[k] == records[k] && Recent(records)[k] == records[|records| - |records| / 2 + k]
    ensures |records| / 2 <= |records| - |records| / 2
    ensures |records| % 2 == 1 ==> |records| / 2 + 1 == |records| - |records| / 2
    ensures Initial(records) + records[|records| / 2..|records| - |records| / 2] + Recent(records) == records
  {
  }

  // ---------------------------------------------------------------------
  // Tallies over one half, as the `for myValue in Array(half)` loops build them

  /** What `total += Int(myValue.m!)` adds for one day: Int of a present value, else 0. */
  function Contribution(r: HealthData, m: Metric): int
  {
    match Value(r, m)
    case Some(v) => Trunc(v)
    case None => 0
  }

  /** The sum of `Int(v)` over the present values of `m` (lines 152-164, 245-252, 286-298). */
  function PresentTotal(days: seq<HealthData>, m: Metric): int
    decreases |days|
  {
    if days == [] then 0
    else PresentTotal(days[..|days| - 1], m) + Contribution(days[|days| - 1], m)
  }

  /** The number of days on which `m` is present. */
  function PresentCount(days: seq<HealthData>, m: Metric): nat
    decreases |days|
  {
    if days == [] then 0
    else PresentCount(days[..|days| - 1], m) + (if Value(days[|days| - 1], m).Some? then 1 else 0)
  }

  /** A half has no sample of `m` exactly when its count is 0; the count never exceeds the days. */
  lemma {:induction false} PresentCountZero(days: seq<HealthData>, m: Metric)
    ensures PresentCount(days, m) <= |days|
    ensures PresentCount(days, m) == 0 <==> forall k :: 0 <= k < |days| ==> Value(days[k], m).None?
    decreases |days|
  {
    if days != [] {
      var last := |days| - 1;
      PresentCountZero(days[..last], m);
      assert forall k :: 0 <= k < last ==> days[..last][k] == days[k];
    }
  }

  /** With no negative sample, the total is not negative either. */
  lemma {:induction false} PresentTotalNonNegative(days: seq<HealthData>, m: Metric)
    requires forall k :: 0 <= k < |days| && Value(days[k], m).Some? ==> Value(days[k], m).value >= 0.0
    ensures PresentTotal(days, m) >= 0
    decreases |days|
  {
    if days != [] {
      var last := |days| - 1;
      assert forall k :: 0 <= k < last ==> days[..last][k] == days[k];
      PresentTotalNonNegative(days[..last], m);
    }
  }

  /** When every day carries the same whole value `v` of `m`, the total is |days| * v. */
  lemma {:induction false} UniformTotal(days: seq<HealthData>, m: Metric, v: nat)
    requires forall k :: 0 <= k < |days| ==> Value(days[k], m) == Some(v as real)
    ensures PresentTotal(days, m) == |days| * v
    ensures PresentCount(days, m) == |days|
    decreases |days|
  {
    if days != [] {
      var last := |days| - 1;
      var init := days[..last];
      assert forall k :: 0 <= k < last ==> init[k] == days[k];
      UniformTotal(init, m, v);
      assert Contribution(days[last], m) == v by {
        assert Value(days[last], m) == Some(v as real);
        assert (v as real).Floor == v;
      }
      assert PresentTotal(days, m) == last * v + v;
      assert (last + 1) * v == last * v + v;
    }
  }

  /** `Int(total / count)` with a floor of 1: the steps and screen-time baseline (lines 166, 300). */
  function FlooredAverage(days: seq<HealthData>, m: Metric): (avg: int)
    requires PresentCount(days, m) > 0
    ensures avg >= 1 && avg >= Quot(PresentTotal(days, m), PresentCount(days, m))
    ensures avg == 1 || avg == Quot(PresentTotal(days, m), PresentCount(days, m))
  {
    Max(Quot(PresentTotal(days, m), PresentCount(days, m)), 1)
  }

  /** `total / count` with no floor (lines 167, 301). */
  function Average(days: seq<HealthData>, m: Metric): int
    requires PresentCount(days, m) > 0
  {
    Quot(PresentTotal(days, m), PresentCount(days, m))
  }

  // ---------------------------------------------------------------------
  // Comparing two averages (lines 169-181, 222-235, 303-315)

  /** `rece_avg * 100 / init_avg`. */
  function Percentage(initAvg: int, receAvg: int): int
    requires initAvg != 0
  {
    Quot(receAvg * 100, initAvg)
  }

  /** Which branch of `if abs(percentage-100) > 5 { if (percentage-100) > 0 ...` is taken. */
  datatype Trend = Up(percent: int) | Down | Level

  function Compare(initAvg: int, receAvg: int): (t: Trend)
    requires initAvg != 0
    ensures t.Up? <==> Percentage(initAvg, receAvg) > 105
    ensures t.Up? ==> t.percent == Percentage(initAvg, receAvg) - 100 && t.percent > 5
    ensures t.Down? <==> Percentage(initAvg, receAvg) < 95
    ensures t.Level? <==> 95 <= Percentage(initAvg, receAvg) <= 105
  {
    var percentage := Percentage(initAvg, receAvg);
    if Abs(percentage - 100) > 5 then
      if percentage - 100 > 0 then Up(percentage - 100) else Down
    else Level
  }

  // ---------------------------------------------------------------------
  // Steps (lines 146-183)

  predicate StepsAnalysable(initial: seq<HealthData>, recent: seq<HealthData>)
  {
    PresentCount(initial, Steps) > 0 && PresentCount(recent, Steps) > 0
  }

  function StepsAnalysis(initial: seq<HealthData>, recent: seq<HealthData>): (a: Analysis)
    requires StepsAnalysable(initial, recent)
    ensures a.category == "Steps" && a.image == Some("figure.walk.motion")
    ensures a.rank == 0
    ensures var p := Percentage(FlooredAverage(initial, Steps), Average(recent, Steps));
      && (a.prediction.Higher? <==> p > 105)
      && (a.prediction.Higher? ==> a.prediction.percent == p - 100)
      && (a.prediction == Lower <==> p < 95)
      && (a.prediction == Similar <==> 95 <= p <= 105)
  {
    var narrative :=
      match Compare(FlooredAverage(initial, Steps), Average(recent, Steps))
      case Up(percent) => Higher(percent)
      case Down => Lower
      case Level => Similar;
    Analysis(Some("figure.walk.motion"), narrative, "Steps", 0)
  }

  // ---------------------------------------------------------------------
  // Sleep (lines 187-238)

  /** A sample that is present and not 0 (the test at lines 194 and 205). */
  predicate Slept(r: HealthData)
  {
    r.sleepHours.Some? && r.sleepHours.value != 0.0
  }

  /** Only samples that pass `Slept` add to the sleep total. */
  function SleepTotal(days: seq<HealthData>): int
    decreases |days|
  {
    if days == [] then 0
    else SleepTotal(days[..|days| - 1]) + (if Slept(days[|days| - 1]) then Trunc(days[|days| - 1].sleepHours.value) else 0)
  }

  /** Samples that pass `Slept` are counted; the others only when `countZeroSleepAsNoSleep` is set. */
  function SleepCount(days: seq<HealthData>, countZeroSleepAsNoSleep: bool): nat
    decreases |days|
  {
    if days == [] then 0
    else SleepCount(days[..|days| - 1], countZeroSleepAsNoSleep) + (if Slept(days[|days| - 1]) || countZeroSleepAsNoSleep then 1 else 0)
  }

  /** With the setting on, every day is counted; with it off, fewer or as many. */
  lemma {:induction false} SleepCountBySetting(days: seq<HealthData>)
    ensures SleepCount(days, true) == |days|
    ensures SleepCount(days, false) <= SleepCount(days, true)
    ensures SleepCount(days, false) == |days| <==> forall k :: 0 <= k < |days| ==> Slept(days[k])
    decreases |days|
  {
    if days != [] {
      var last := |days| - 1;
      SleepCountBySetting(days[..last]);
      assert forall k :: 0 <= k < last ==> days[..last][k] == days[k];
    }
  }

  /** A nonzero sleep total needs at least one counted sample, whatever the setting. */
  lemma {:induction false} SleepCountCoversTotal(days: seq<HealthData>, countZeroSleepAsNoSleep: bool)
    ensures SleepTotal(days) != 0 ==> SleepCount(days, countZeroSleepAsNoSleep) >= 1
    decreases |days|
  {
    if days != [] {
      SleepCountCoversTotal(days[..|days| - 1], countZeroSleepAsNoSleep);
    }
  }

  /** Without a single day that passes `Slept`, the sleep total is 0. */
  lemma {:induction false} NoSleepTotalZero(days: seq<HealthData>)
    requires forall k :: 0 <= k < |days| ==> !Slept(days[k])
    ensures SleepTotal(days) == 0
    decreases |days|
  {
    if days != [] {
      var last := |days| - 1;
      assert forall k :: 0 <= k < last ==> days[..last][k] == days[k];
      NoSleepTotalZero(days[..last]);
    }
  }

  /** The Sleep block runs only when neither half's total is 0 (line 214). */
  predicate SleepReported(initial: seq<HealthData>, recent: seq<HealthData>)
  {
    SleepTotal(initial) != 0 && SleepTotal(recent) != 0
  }

  /** Once the Sleep block runs, both halves have counted at least one night, whatever the setting. */
  lemma ReportedSleepCounted(initial: seq<HealthData>, recent: seq<HealthData>, countZeroSleepAsNoSleep: bool)
    requires SleepReported(initial, recent)
    ensures SleepCount(initial, countZeroSleepAsNoSleep) >= 1 && SleepCount(recent, countZeroSleepAsNoSleep) >= 1
  {
    SleepCountCoversTotal(initial, countZeroSleepAsNoSleep);
    SleepCountCoversTotal(recent, countZeroSleepAsNoSleep);
  }

  /**
   * The Sleep block does not trap: once it runs, the baseline
   * `initial_total / initial_count` must not be 0, since line 222 divides
   * by it. The count is then at least 1 (see SleepCountCoversTotal).
   */
  predicate SleepAnalysable(initial: seq<HealthData>, recent: seq<HealthData>, countZeroSleepAsNoSleep: bool)
  {
    SleepReported(initial, recent) ==>
      && SleepCount(initial, countZeroSleepAsNoSleep) > 0
      && SleepCount(recent, countZeroSleepAsNoSleep) > 0
      && Quot(SleepTotal(initial), SleepCount(initial, countZeroSleepAsNoSleep)) != 0
  }

  function SleepAverage(days: seq<HealthData>, countZeroSleepAsNoSleep: bool): int
    requires SleepCount(days, countZeroSleepAsNoSleep) > 0
  {
    Quot(SleepTotal(days), SleepCount(days, countZeroSleepAsNoSleep))
  }

  function SleepAnalysis(initial: seq<HealthData>, recent: seq<HealthData>, countZeroSleepAsNoSleep: bool): (r: Option<Analysis>)
    requires SleepAnalysable(initial, recent, countZeroSleepAsNoSleep)
    ensures r.None? <==> SleepTotal(initial) == 0 || SleepTotal(recent) == 0
    ensures r.Some? ==> r.value.category == "Sleep" && r.value.image == Some("bed.double")
    ensures r.Some? ==>
      var initAvg := SleepAverage(initial, countZeroSleepAsNoSleep);
      var receAvg := SleepAverage(recent, countZeroSleepAsNoSleep);
      var p := Percentage(initAvg, receAvg);
      && (r.value.rank == -1 <==> p < 95)
      && (r.value.rank == 0 <==> p >= 95)
      && (p < 95 ==> r.value.prediction == FewerHours(initAvg - receAvg))
      && (p > 105 ==> r.value.prediction == Higher(p - 100))
      && (95 <= p <= 105 ==> r.value.prediction == Similar)
  {
    if !SleepReported(initial, recent) then None
    else
      var initAvg := SleepAverage(initial, countZeroSleepAsNoSleep);
      var receAvg := SleepAverage(recent, countZeroSleepAsNoSleep);
      Some(
        match Compare(initAvg, receAvg)
        case Up(percent) => Analysis(Some("bed.double"), Higher(percent), "Sleep", 0)
        case Down => Analysis(Some("bed.double"), FewerHours(initAvg - receAvg), "Sleep", -1)
        case Level => Analysis(Some("bed.double"), Similar, "Sleep", 0))
  }

  // ---------------------------------------------------------------------
  // Exercise Minutes (lines 242-274)

  /** The force-unwrap at line 256 finds a sleep sample on every day that has exercise data. */
  predicate SleepLoggedOnExerciseDays(days: seq<HealthData>)
  {
    forall k :: 0 <= k < |days| && days[k].exerciseMinutes.Some? ==> days[k].sleepHours.Some?
  }

  /** What the recent-half loop adds: `Int(sleepHours!)` on each day with exercise data. */
  function SleepOnExerciseDays(days: seq<HealthData>): int
    requires SleepLoggedOnExerciseDays(days)
    decreases |days|
  {
    if days == [] then 0
    else
      var last := days[|days| - 1];
      SleepOnExerciseDays(days[..|days| - 1]) + (if last.exerciseMinutes.Some? then Trunc(last.sleepHours.value) else 0)
  }

  predicate ExerciseAnalysable(initial: seq<HealthData>, recent: seq<HealthData>)
  {
    && SleepLoggedOnExerciseDays(recent)
    && PresentCount(initial, ExerciseMinutes) + PresentCount(recent, ExerciseMinutes) > 0
  }

  /** The one accumulator shared by both halves, divided by the days with exercise data (line 263). */
  function ExerciseAverage(initial: seq<HealthData>, recent: seq<HealthData>): (average: int)
    requires ExerciseAnalysable(initial, recent)
    ensures var total := PresentTotal(initial, ExerciseMinutes) + SleepOnExerciseDays(recent);
      var count := PresentCount(initial, ExerciseMinutes) + PresentCount(recent, ExerciseMinutes);
      total >= 0 ==> 0 <= average && average * count <= total < average * count + count
  {
    var total := PresentTotal(initial, ExerciseMinutes) + SleepOnExerciseDays(recent);
    var count := PresentCount(initial, ExerciseMinutes) + PresentCount(recent, ExerciseMinutes);
    if total >= 0 then QuotBounds(total, count); Quot(total, count) else Quot(total, count)
  }

  function ExerciseAnalysis(initial: seq<HealthData>, recent: seq<HealthData>): (a: Analysis)
    requires ExerciseAnalysable(initial, recent)
    ensures a.category == "Exercise Minutes" && a.image == Some("figure.play")
    ensures a.prediction == DailyExercise(ExerciseAverage(initial, recent))
    ensures a.rank == -1 <==> ExerciseAverage(initial, recent) < 20
    ensures a.rank == 1 <==> ExerciseAverage(initial, recent) > 60
    ensures a.rank == 0 <==> 20 <= ExerciseAverage(initial, recent) <= 60
  {
    var average := ExerciseAverage(initial, recent);
    var rank := if average < 20 then -1 else if average > 60 then 1 else 0;
    Analysis(Some("figure.play"), DailyExercise(average), "Exercise Minutes", rank)
  }

  /**
   * The exercise average counts sleep hours for the recent half. Take one
   * initial day with 30 exercise minutes and one recent day with 30
   * exercise minutes and 8 hours of sleep. The average is (30 + 8) / 2 = 19,
   * and the Exercise prediction is ranked -1.
   */
  lemma ExerciseAverageCountsRecentSleep()
    ensures
      var before := Blank(0, "day 1").(exerciseMinutes := Some(30.0));
      var after := Blank(1, "day 2").(exerciseMinutes := Some(30.0), sleepHours := Some(8.0));
      ExerciseAnalysable([before], [after]) &&
      ExerciseAnalysis([before], [after]) == Analysis(Some("figure.play"), DailyExercise(19), "Exercise Minutes", -1)
  {
    var before := Blank(0, "day 1").(exerciseMinutes := Some(30.0));
    var after := Blank(1, "day 2").(exerciseMinutes := Some(30.0), sleepHours := Some(8.0));
    assert [before][..0] == [] && [after][..0] == [];
    assert Trunc(30.0) == 30 && Trunc(8.0) == 8;
    assert Contribution(before, ExerciseMinutes) == 30;
    assert PresentTotal([before], ExerciseMinutes) == PresentTotal([], ExerciseMinutes) + Contribution(before, ExerciseMinutes);
    assert PresentTotal([before], ExerciseMinutes) == 30;
    assert PresentCount([before], ExerciseMinutes) == PresentCount([], ExerciseMinutes) + 1;
    assert SleepOnExerciseDays([after]) == SleepOnExerciseDays([]) + Trunc(8.0);
    assert PresentCount([after], ExerciseMinutes) == PresentCount([], ExerciseMinutes) + 1;
    assert ExerciseAverage([before], [after]) == Quot(38, 2) == 19;
  }

  // ---------------------------------------------------------------------
  // Screen Time (lines 280-317)

  predicate ScreenTimeAnalysable(initial: seq<HealthData>, recent: seq<HealthData>)
  {
    PresentCount(initial, ScreenTimeTotal) > 0 && PresentCount(recent, ScreenTimeTotal) > 0
  }

  function ScreenTimeAnalysis(initial: seq<HealthData>, recent: seq<HealthData>): (a: Analysis)
    requires ScreenTimeAnalysable(initial, recent)
    ensures a.category == "Screen Time" && a.image == Some("iphone")
    ensures var initAvg := FlooredAverage(initial, ScreenTimeTotal);
      var receAvg := Average(recent, ScreenTimeTotal);
      var p := Percentage(initAvg, receAvg);
      && (a.rank == -1 <==> p < 95)
      && (a.rank == 0 <==> p >= 95)
      && (p < 95 ==> a.prediction == FewerHours(initAvg - receAvg))
      && (p > 105 ==> a.prediction == Higher(p - 100))
      && (95 <= p <= 105 ==> a.prediction == Similar)
  {
    var initAvg := FlooredAverage(initial, ScreenTimeTotal);
    var receAvg := Average(recent, ScreenTimeTotal);
    match Compare(initAvg, receAvg)
    case Up(percent) => Analysis(Some("iphone"), Higher(percent), "Screen Time", 0)
    case Down => Analysis(Some("iphone"), FewerHours(initAvg - receAvg), "Screen Time", -1)
    case Level => Analysis(Some("iphone"), Similar, "Screen Time", 0)
  }

  // ---------------------------------------------------------------------
  // The whole pass

  /** The records and the setting for which no line of 140-317 traps. */
  predicate Analysable(records: seq<HealthData>, countZeroSleepAsNoSleep: bool)
  {
    var initial := Initial(records);
    var recent := Recent(records);
    && StepsAnalysable(initial, recent)
    && SleepAnalysable(initial, recent, countZeroSleepAsNoSleep)
    && ExerciseAnalysable(initial, recent)
    && ScreenTimeAnalysable(initial, recent)
  }

  /**
   * The predictions of one pass: Steps, then Sleep when it is reported,
   * then Exercise Minutes and Screen Time.
   */
  function Predictions(records: seq<HealthData>, countZeroSleepAsNoSleep: bool): (r: seq<Analysis>)
    requires Analysable(records, countZeroSleepAsNoSleep)
    ensures |r| == 3 || |r| == 4
    ensures |r| == 4 <==> SleepReported(Initial(records), Recent(records))
    ensures r[0].category == "Steps"
    ensures |r| == 4 ==> r[1].category == "Sleep"
    ensures r[|r| - 2].category == "Exercise Minutes" && r[|r| - 1].category == "Screen Time"
    ensures forall k :: 0 <= k < |r| ==> -1 <= r[k].rank <= 1
  {
    var initial := Initial(records);
    var recent := Recent(records);
    var sleep := SleepAnalysis(initial, recent, countZeroSleepAsNoSleep);
    [StepsAnalysis(initial, recent)]
      + (if sleep.Some? then [sleep.value] else [])
      + [ExerciseAnalysis(initial, recent), ScreenTimeAnalysis(initial, recent)]
  }

  /** A `for myValue in Array(half)` loop adding `Int(myValue.m!)` and 1 for each present value. */
  method TallyPresent(half: seq<HealthData>, m: Metric) returns (total: int, count: int)
    ensures total == PresentTotal(half, m) && count == PresentCount(half, m)
  {
    total, count := 0, 0;
    for k := 0 to |half|
      invariant total == PresentTotal(half[..k], m)
      invariant count == PresentCount(half[..k], m)
    {
      assert half[..k + 1][..k] == half[..k];
      var value := Value(half[k], m);
      if value.Some? {
        total := total + Trunc(value.value);
        count := count + 1;
      }
    }
    assert half[..|half|] == half;
  }

  /** The sleep loops at lines 193-213. */
  method TallySleep(half: seq<HealthData>, countZeroSleepAsNoSleep: bool) returns (total: int, count: int)
    ensures total == SleepTotal(half) && count == SleepCount(half, countZeroSleepAsNoSleep)
  {
    total, count := 0, 0;
    for k := 0 to |half|
      invariant total == SleepTotal(half[..k])
      invariant count == SleepCount(half[..k], countZeroSleepAsNoSleep)
    {
      assert half[..k + 1][..k] == half[..k];
      if half[k].sleepHours.Some? && half[k].sleepHours.value != 0.0 {
        total := total + Trunc(half[k].sleepHours.value);
        count := count + 1;
      } else {
        if countZeroSleepAsNoSleep {
          count := count + 1;
        }
      }
    }
    assert half[..|half|] == half;
  }

  /**
   * The recent-half exercise loop at lines 254-261: it carries on the
   * initial half's accumulators and, on each day with exercise data, adds
   * `Int(sleepHours!)`.
   */
  method TallyRecentExercise(half: seq<HealthData>, total0: int, count0: int) returns (total: int, count: int)
    requires SleepLoggedOnExerciseDays(half)
    ensures total == total0 + SleepOnExerciseDays(half)
    ensures count == count0 + PresentCount(half, ExerciseMinutes)
  {
    total, count := total0, count0;
    for k := 0 to |half|
      invariant SleepLoggedOnExerciseDays(half[..k])
      invariant total == total0 + SleepOnExerciseDays(half[..k])
      invariant count == count0 + PresentCount(half[..k], ExerciseMinutes)
    {
      assert half[..k + 1][..k] == half[..k];
      if half[k].exerciseMinutes.Some? {
        total := total + Trunc(half[k].sleepHours.value);
        count := count + 1;
      }
    }
    assert half[..|half|] == half;
  }

  /** The Steps block (lines 146-183). */
  method PredictSteps(initial: seq<HealthData>, recent: seq<HealthData>) returns (pred: Analysis)
    requires StepsAnalysable(initial, recent)
    ensures pred == StepsAnalysis(initial, recent)
  {
    var initialTotal, initialCount := TallyPresent(initial, Steps);
    var finalTotal, finalCount := TallyPresent(recent, Steps);
    var initAvg := Max(Quot(initialTotal, initialCount), 1);
    var receAvg := Quot(finalTotal, finalCount);
    var percentage := Quot(receAvg * 100, initAvg);
    pred := Analysis(Some("figure.walk.motion"), Similar, "Steps", 0);
    if Abs(percentage - 100) > 5 {
      if percentage - 100 > 0 {
        pred := pred.(prediction := Higher(percentage - 100));
      } else {
        pred := pred.(prediction := Lower);
      }
    } else {
      pred := pred.(prediction := Similar);
    }
  }

  /** The Sleep block (lines 187-238); None when it appends nothing. */
  method PredictSleep(initial: seq<HealthData>, recent: seq<HealthData>, countZeroSleepAsNoSleep: bool)
    returns (pred: Option<Analysis>)
    requires SleepAnalysable(initial, recent, countZeroSleepAsNoSleep)
    ensures pred == SleepAnalysis(initial, recent, countZeroSleepAsNoSleep)
  {
    var initialTotal, initialCount := TallySleep(initial, countZeroSleepAsNoSleep);
    var finalTotal, finalCount := TallySleep(recent, countZeroSleepAsNoSleep);
    if initialTotal == 0 || finalTotal == 0 {
      pred := None;
    } else {
      var initAvg := Quot(initialTotal, initialCount);
      var receAvg := Quot(finalTotal, finalCount);
      var percentage := Quot(receAvg * 100, initAvg);
      var analysis := Analysis(Some("bed.double"), Similar, "Sleep", 0);
      if Abs(percentage - 100) > 5 {
        if percentage - 100 > 0 {
          analysis := analysis.(prediction := Higher(percentage - 100));
        } else {
          analysis := analysis.(prediction := FewerHours(initAvg - receAvg));
          analysis := analysis.(rank := -1);
        }
      } else {
        analysis := analysis.(prediction := Similar);
      }
      pred := Some(analysis);
    }
  }

  /** The Exercise Minutes block (lines 242-274): one accumulator over both halves. */
  method PredictExercise(initial: seq<HealthData>, recent: seq<HealthData>) returns (pred: Analysis)
    requires ExerciseAnalysable(initial, recent)
    ensures pred == ExerciseAnalysis(initial, recent)
  {
    var initialTotal, initialCount := TallyPresent(initial, ExerciseMinutes);
    initialTotal, initialCount := TallyRecentExercise(recent, initialTotal, initialCount);
    var initAvg := Quot(initialTotal, initialCount);
    pred := Analysis(Some("figure.play"), DailyExercise(initAvg), "Exercise Minutes", 0);
    if initAvg < 20 {
      pred := pred.(rank := -1);
    } else if initAvg > 60 {
      pred := pred.(rank := 1);
    }
  }

  /** The Screen Time block (lines 280-317). */
  method PredictScreenTime(initial: seq<HealthData>, recent: seq<HealthData>) returns (pred: Analysis)
    requires ScreenTimeAnalysable(initial, recent)
    ensures pred == ScreenTimeAnalysis(initial, recent)
  {
    var initialTotal, initialCount := TallyPresent(initial, ScreenTimeTotal);
    var finalTotal, finalCount := TallyPresent(recent, ScreenTimeTotal);
    var initAvg := Max(Quot(initialTotal, initialCount), 1);
    var receAvg := Quot(finalTotal, finalCount);
    var percentage := Quot(receAvg * 100, initAvg);
    pred := Analysis(Some("iphone"), Similar, "Screen Time", 0);
    if Abs(percentage - 100) > 5 {
      if percentage - 100 > 0 {
        pred := pred.(prediction := Higher(percentage - 100));
      } else {
        pred := pred.(prediction := FewerHours(initAvg - receAvg));
        pred := pred.(rank := -1);
      }
    } else {
      pred := pred.(prediction := Similar);
    }
  }

  /**
   * The Steps, Sleep and Exercise blocks of the `Task` closure: the list
   * starts empty and each block appends its prediction in turn.
   */
  method PredictFirstThree(initial: seq<HealthData>, recent: seq<HealthData>, countZeroSleepAsNoSleep: bool)
    returns (predictions: seq<Analysis>)
    requires StepsAnalysable(initial, recent) && SleepAnalysable(initial, recent, countZeroSleepAsNoSleep)
    requires ExerciseAnalysable(initial, recent)
    ensures predictions == AppendSome([StepsAnalysis(initial, recent)], SleepAnalysis(initial, recent, countZeroSleepAsNoSleep))
      + [ExerciseAnalysis(initial, recent)]
  {
    predictions := [];
    var steps := PredictSteps(initial, recent);
    predictions := predictions + [steps];
    var sleep := PredictSleep(initial, recent, countZeroSleepAsNoSleep);
    if sleep.Some? {
      predictions := predictions + [sleep.value];
    }
    var exercise := PredictExercise(initial, recent);
    predictions := predictions + [exercise];
  }

  /**
   * The body of the `Task` closure from the split to the last append: the
   * first three blocks, then the Screen Time block appends its prediction.
   */
  method Analyse(records: seq<HealthData>, countZeroSleepAsNoSleep: bool) returns (predictions: seq<Analysis>)
    requires Analysable(records, countZeroSleepAsNoSleep)
    ensures predictions == Predictions(records, countZeroSleepAsNoSleep)
  {
    var splitNum := |records| / 2;
    var initial := records[..splitNum];
    var recent := records[|records| - splitNum..];
    assert initial == Initial(records) && recent == Recent(records);
    assert StepsAnalysable(initial, recent) && SleepAnalysable(initial, recent, countZeroSleepAsNoSleep);
    assert ExerciseAnalysable(initial, recent) && ScreenTimeAnalysable(initial, recent);

    predictions := PredictFirstThree(initial, recent, countZeroSleepAsNoSleep);
    var screenTime := PredictScreenTime(initial, recent);
    predictions := predictions + [screenTime];
  }

  /** The same pass with the Screen Time block behind its guard. */
  method AnalyseGuarded(records: seq<HealthData>, countZeroSleepAsNoSleep: bool) returns (predictions: seq<Analysis>)
    requires GuardedAnalysable(records, countZeroSleepAsNoSleep)
    ensures predictions == GuardedPredictions(records, countZeroSleepAsNoSleep)
  {
    var splitNum := |records| / 2;
    var initial := records[..splitNum];
    var recent := records[|records| - splitNum..];
    assert initial == Initial(records) && recent == Recent(records);

    predictions := PredictFirstThree(initial, recent, countZeroSleepAsNoSleep);
    var _, initialCount := TallyPresent(initial, ScreenTimeTotal);
    var _, finalCount := TallyPresent(recent, ScreenTimeTotal);
    if initialCount > 0 && finalCount > 0 {
      var screenTime := PredictScreenTime(initial, recent);
      predictions := predictions + [screenTime];
    }
  }

  // ---------------------------------------------------------------------
  // Properties of the pass

  /**
   * Steps in the initial week sum to 700 over 7 days and in the recent week
   * to 1050 over 7 days: the averages are 100 and 150, the percentage is
   * 150, and the Steps prediction reports a 50% increase, unranked.
   */
  lemma {:induction false} StepsIncreaseByHalf(initial: seq<HealthData>, recent: seq<HealthData>)
    requires |initial| == 7 && |recent| == 7
    requires forall k :: 0 <= k < 7 ==> initial[k].steps == Some(100.0) && recent[k].steps == Some(150.0)
    ensures StepsAnalysable(initial, recent)
    ensures StepsAnalysis(initial, recent) == Analysis(Some("figure.walk.motion"), Higher(50), "Steps", 0)
  {
    UniformTotal(initial, Steps, 100);
    UniformTotal(recent, Steps, 150);
  }

  /** With no sleep sample at all, no Sleep prediction is made: three entries remain. */
  lemma NoSleepNoSleepPrediction(records: seq<HealthData>, countZeroSleepAsNoSleep: bool)
    requires Analysable(records, countZeroSleepAsNoSleep)
    requires forall k :: 0 <= k < |records| ==> records[k].sleepHours.None?
    ensures |Predictions(records, countZeroSleepAsNoSleep)| == 3
    ensures forall k :: 0 <= k < 3 ==> Predictions(records, countZeroSleepAsNoSleep)[k].category != "Sleep"
  {
    SplitHalves(records);
    NoSleepTotalZero(Initial(records));
  }

  /**
   * Without any screen-time sample the pass always traps: the Screen Time
   * block divides by the initial half's count of 0 (line 300).
   */
  lemma NoScreenTimeNotAnalysable(records: seq<HealthData>, countZeroSleepAsNoSleep: bool)
    requires forall k :: 0 <= k < |records| ==> records[k].screenTimeTotal.None?
    ensures !Analysable(records, countZeroSleepAsNoSleep)
  {
    SplitHalves(records);
    PresentCountZero(Initial(records), ScreenTimeTotal);
  }

  // ---------------------------------------------------------------------
  // The Screen Time block behind a guard, as the Sleep block has one

  /**
   * The Screen Time block skipped, as the Sleep block is, when a half gives
   * it nothing to divide by: no prediction then, and otherwise the block's
   * own prediction.
   */
  function GuardedScreenTimeAnalysis(initial: seq<HealthData>, recent: seq<HealthData>): (a: Option<Analysis>)
    ensures a.None? <==> PresentCount(initial, ScreenTimeTotal) == 0 || PresentCount(recent, ScreenTimeTotal) == 0
    ensures a.Some? ==> ScreenTimeAnalysable(initial, recent) && a.value == ScreenTimeAnalysis(initial, recent)
  {
    if ScreenTimeAnalysable(initial, recent) then Some(ScreenTimeAnalysis(initial, recent)) else None
  }

  /** What the guarded pass needs: every block but Screen Time must not trap. */
  predicate GuardedAnalysable(records: seq<HealthData>, countZeroSleepAsNoSleep: bool)
  {
    var initial := Initial(records);
    var recent := Recent(records);
    && StepsAnalysable(initial, recent)
    && SleepAnalysable(initial, recent, countZeroSleepAsNoSleep)
    && ExerciseAnalysable(initial, recent)
  }

  /** The predictions of one pass with the Screen Time block guarded. */
  function GuardedPredictions(records: seq<HealthData>, countZeroSleepAsNoSleep: bool): (r: seq<Analysis>)
    requires GuardedAnalysable(records, countZeroSleepAsNoSleep)
    ensures 2 <= |r| <= 4
    ensures r[0].category == "Steps"
    ensures forall k :: 0 <= k < |r| ==> -1 <= r[k].rank <= 1
  {
    var initial := Initial(records);
    var recent := Recent(records);
    var sleep := SleepAnalysis(initial, recent, countZeroSleepAsNoSleep);
    var screenTime := GuardedScreenTimeAnalysis(initial, recent);
    AppendSome(AppendSome([StepsAnalysis(initial, recent)], sleep) + [ExerciseAnalysis(initial, recent)], screenTime)
  }

  /** Appending a block's prediction when it makes one. */
  function AppendSome(predictions: seq<Analysis>, a: Option<Analysis>): (r: seq<Analysis>)
    ensures a.None? ==> r == predictions
    ensures a.Some? ==> |r| == |predictions| + 1 && r[..|predictions|] == predictions && r[|predictions|] == a.value
  {
    if a.Some? then predictions + [a.value] else predictions
  }

  /** Wherever the source's pass does not trap, the guarded pass gives the same predictions. */
  lemma GuardedPredictionsAgree(records: seq<HealthData>, countZeroSleepAsNoSleep: bool)
    requires Analysable(records, countZeroSleepAsNoSleep)
    ensures GuardedAnalysable(records, countZeroSleepAsNoSleep)
    ensures GuardedPredictions(records, countZeroSleepAsNoSleep) == Predictions(records, countZeroSleepAsNoSleep)
  {
  }

  /**
   * Without any screen-time sample the guarded pass does not trap in the
   * Screen Time block: it ends with the Exercise Minutes prediction and has
   * no Screen Time entry.
   */
  lemma GuardedWithoutScreenTime(records: seq<HealthData>, countZeroSleepAsNoSleep: bool)
    requires GuardedAnalysable(records, countZeroSleepAsNoSleep)
    requires forall k :: 0 <= k < |records| ==> records[k].screenTimeTotal.None?
    ensures var r := GuardedPredictions(records, countZeroSleepAsNoSleep);
      && r[|r| - 1].category == "Exercise Minutes"
      && forall k :: 0 <= k < |r| ==> r[k].category != "Screen Time"
  {
    var initial, recent := Initial(records), Recent(records);
    SplitHalves(records);
    PresentCountZero(initial, ScreenTimeTotal);
    assert GuardedScreenTimeAnalysis(initial, recent) == None;
    var sleep := SleepAnalysis(initial, recent, countZeroSleepAsNoSleep);
    var head := AppendSome([StepsAnalysis(initial, recent)], sleep);
    assert forall k :: 0 <= k < |head| ==> head[k].category in {"Steps", "Sleep"};
    assert GuardedPredictions(records, countZeroSleepAsNoSleep) == head + [ExerciseAnalysis(initial, recent)];
  }

  /** A pass over fewer than two records always traps: both halves are empty. */
  lemma TooFewRecords(records: seq<HealthData>, countZeroSleepAsNoSleep: bool)
    requires |records| < 2
    ensures !Analysable(records, countZeroSleepAsNoSleep)
  {
  }

}
