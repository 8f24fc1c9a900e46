/**
 * The daily health record and how `HealthDataFetcher` assembles the last
 * fourteen of them (iCUrHealth/HealthData.swift).
 *
 * HealthKit itself is not modelled. Each query becomes a parameter holding
 * what the query produced: the per-day statistics of a quantity query, the
 * sleep samples of each night, and the fetched arrays (`nil` when the fetch
 * threw). The calendar becomes the dates it computed.
 */
module HealthRecords {
  import opened Optional

  /**
   * One day of data. `id` stands for the UUID drawn when the record is
   * created. The last three fields are read by the analysis but missing from
   * the struct as shown in the source. Here they are fields like the others
   * and are never filled in by the fetcher.
   */
  datatype HealthData = HealthData(
    id: nat,
    date: string,
    steps: Option<real>,
    activeEnergy: Option<real>,
    exerciseMinutes: Option<real>,
    bodyWeight: Option<real>,
    sleepHours: Option<real>,
    heartRate: Option<real>,
    minutesInDaylight: Option<real>,
    screenTimeSocialMedia: Option<real>,
    screenTimeTotal: Option<real>)

  /** `HealthData(date:)`: a fresh record with every measurement nil. */
  function Blank(id: nat, date: string): HealthData
  {
    HealthData(id, date, None, None, None, None, None, None, None, None, None)
  }

  /** The eight measurements the analysis reads through key paths. */
  datatype Metric =
    | Steps | ActiveEnergy | ExerciseMinutes | SleepHours
    | MinutesInDaylight | BodyWeight | ScreenTimeSocialMedia | ScreenTimeTotal

  /** `r[keyPath: m]`. */
  function Value(r: HealthData, m: Metric): Option<real>
  {
    match m
    case Steps => r.steps
    case ActiveEnergy => r.activeEnergy
    case ExerciseMinutes => r.exerciseMinutes
    case SleepHours => r.sleepHours
    case MinutesInDaylight => r.minutesInDaylight
    case BodyWeight => r.bodyWeight
    case ScreenTimeSocialMedia => r.screenTimeSocialMedia
    case ScreenTimeTotal => r.screenTimeTotal
  }

  // ---------------------------------------------------------------------
  // fetchLastTwoWeeksQuantityData

  /** The value appended for one enumerated day: its sum, or 0 when it has none. */
  function SumOrZero(sum: Option<real>): real
  {
    match sum
    case Some(quantity) => quantity
    case None => 0.0
  }

  /**
   * The enumeration at lines 88-101. `statistics` holds, for each day the
   * statistics collection enumerates, the day's sum already converted to the
   * requested unit, or None when `sumQuantity()` is nil.
   */
  method DailyQuantities(statistics: seq<Option<real>>) returns (dailyData: seq<real>)
    ensures |dailyData| == |statistics|
    ensures forall k :: 0 <= k < |statistics| && statistics[k].Some? ==> dailyData[k] == statistics[k].value
    ensures forall k :: 0 <= k < |statistics| && statistics[k].None? ==> dailyData[k] == 0.0
  {
    dailyData := [];
    for k := 0 to |statistics|
      invariant |dailyData| == k
      invariant forall i :: 0 <= i < k ==> dailyData[i] == SumOrZero(statistics[i])
    {
      if statistics[k].Some? {
        dailyData := dailyData + [statistics[k].value];
      } else {
        dailyData := dailyData + [0.0];
      }
    }
  }

  // ---------------------------------------------------------------------
  // fetchLastTwoWeeksSleep

  /** One asleep sample, its dates in seconds. */
  datatype SleepSample = SleepSample(startDate: real, endDate: real)

  /**
   * What the loop at lines 148-179 meets for one day: the calendar could not
   * compute the 3 PM window (the guard at lines 150-156), the sample query
   * threw (line 170), or the query returned these asleep samples.
   */
  datatype SleepNight = NoWindow | QueryFailed | Asleep(samples: seq<SleepSample>)

  /** The total of `endDate - startDate` over the samples (lines 172-175). */
  function SecondsAsleep(samples: seq<SleepSample>): real
    decreases |samples|
  {
    if samples == [] then 0.0
    else SecondsAsleep(samples[..|samples| - 1]) + (samples[|samples| - 1].endDate - samples[|samples| - 1].startDate)
  }

  /** The value one night contributes: 0 without a window, else its hours asleep. */
  function HoursAsleep(night: SleepNight): real
    requires !night.QueryFailed?
  {
    match night
    case NoWindow => 0.0
    case Asleep(samples) => SecondsAsleep(samples) / (60.0 * 60.0)
  }

  /**
   * `fetchLastTwoWeeksSleep`: `nights[day + 14]` is what the day `day`
   * (from -14 to -1) produced. None stands for the error the function
   * throws when a query throws.
   */
  method LastTwoWeeksSleep(nights: seq<SleepNight>) returns (dailySleepData: Option<seq<real>>)
    requires |nights| == 14
    ensures dailySleepData.None? <==> exists k :: 0 <= k < 14 && nights[k].QueryFailed?
    ensures dailySleepData.Some? ==> |dailySleepData.value| == 14
    ensures dailySleepData.Some? ==>
      forall k :: 0 <= k < 14 ==> !nights[k].QueryFailed? && dailySleepData.value[k] == HoursAsleep(nights[k])
  {
    var daily: seq<real> := [];
    for day := -14 to 0
      invariant |daily| == day + 14
      invariant forall k :: 0 <= k < day + 14 ==> !nights[k].QueryFailed? && daily[k] == HoursAsleep(nights[k])
    {
      var night := nights[day + 14];
      if night.NoWindow? {
        daily := daily + [0.0];
        continue;
      }
      if night.QueryFailed? {
        return None;
      }
      var secondsAsleep := 0.0;
      for i := 0 to |night.samples|
        invariant secondsAsleep == SecondsAsleep(night.samples[..i])
      {
        assert night.samples[..i + 1][..i] == night.samples[..i];
        secondsAsleep := secondsAsleep + (night.samples[i].endDate - night.samples[i].startDate);
      }
      assert night.samples[..|night.samples|] == night.samples;
      daily := daily + [secondsAsleep / (60.0 * 60.0)];
    }
    return Some(daily);
  }

  // ---------------------------------------------------------------------
  // fetchAndProcessHealthData

  /**
   * The records the loop at lines 199-206 appends. `endDates[day - 1]` is
   * the formatted date `day` days before today, or None when the calendar
   * cannot compute it and the guard skips the day; `ids[day - 1]` is the
   * UUID the record for that day receives.
   */
  function Created(endDates: seq<Option<string>>, ids: seq<nat>): (records: seq<HealthData>)
    requires |ids| == |endDates|
    ensures |records| <= |endDates|
    ensures forall k :: 0 <= k < |records| ==> records[k] == Blank(records[k].id, records[k].date)
    decreases |endDates|
  {
    if endDates == [] then []
    else
      var last := |endDates| - 1;
      Created(endDates[..last], ids[..last]) +
      (match endDates[last] case Some(date) => [Blank(ids[last], date)] case None => [])
  }

  /** No day is skipped exactly when the calendar computes every date, and then record k is day k + 1's. */
  lemma {:induction false} CreatedEveryDay(endDates: seq<Option<string>>, ids: seq<nat>)
    requires |ids| == |endDates|
    ensures |Created(endDates, ids)| <= |endDates|
    ensures |Created(endDates, ids)| == |endDates| <==> forall k :: 0 <= k < |endDates| ==> endDates[k].Some?
    ensures (forall k :: 0 <= k < |endDates| ==> endDates[k].Some?) ==>
      forall k :: 0 <= k < |endDates| ==> Created(endDates, ids)[k] == Blank(ids[k], endDates[k].value)
    decreases |endDates|
  {
    if endDates != [] {
      var last := |endDates| - 1;
      CreatedEveryDay(endDates[..last], ids[..last]);
      if forall k :: 0 <= k < |endDates| ==> endDates[k].Some? {
        assert forall k :: 0 <= k < last ==> endDates[..last][k] == endDates[k];
      } else if endDates[last].Some? {
        var k :| 0 <= k < |endDates| && endDates[k].None?;
        assert endDates[..last][k].None?;
      }
    }
  }

  method CreateRecords(endDates: seq<Option<string>>, ids: seq<nat>) returns (healthData: seq<HealthData>)
    requires |ids| == |endDates|
    ensures healthData == Created(endDates, ids)
  {
    healthData := [];
    for day := 1 to |endDates| + 1
      invariant healthData == Created(endDates[..day - 1], ids[..day - 1])
    {
      assert endDates[..day][..day - 1] == endDates[..day - 1];
      assert ids[..day][..day - 1] == ids[..day - 1];
      var endDate := endDates[day - 1];
      if endDate.None? {
        continue;
      }
      healthData := healthData + [Blank(ids[day - 1], endDate.value)];
    }
    assert endDates[..|endDates|] == endDates && ids[..|ids|] == ids;
  }

  /** `array.reversed()`. */
  function Reversed<T>(s: seq<T>): (r: seq<T>)
    ensures |r| == |s|
    ensures forall k :: 0 <= k < |s| ==> r[k] == s[|s| - 1 - k]
    decreases |s|
  {
    if s == [] then [] else [s[|s| - 1]] + Reversed(s[..|s| - 1])
  }

  /** `fetched?[day]`: nil when the fetch threw, else its element `day`. */
  function At(fetched: Option<seq<real>>, day: nat): Option<real>
    requires fetched.Some? ==> day < |fetched.value|
  {
    match fetched
    case None => None
    case Some(values) => Some(values[day])
  }

  /** A fetch the merge can index at 0 through 13 without trapping. */
  predicate CoversFortnight(fetched: Option<seq<real>>)
  {
    fetched.Some? ==> |fetched.value| >= 14
  }

  /** The five `try? await` results of lines 216-220: each is nil when its fetch threw. */
  datatype Fetched = Fetched(
    stepCounts: Option<seq<real>>,
    sleepHours: Option<seq<real>>,
    caloriesBurned: Option<seq<real>>,
    exerciseTime: Option<seq<real>>,
    bodyMass: Option<seq<real>>)

  predicate CoversMerge(f: Fetched)
  {
    && CoversFortnight(f.stepCounts) && CoversFortnight(f.sleepHours)
    && CoversFortnight(f.caloriesBurned) && CoversFortnight(f.exerciseTime)
    && CoversFortnight(f.bodyMass)
  }

  /**
   * `fetchAndProcessHealthData` after authorization: create a record per
   * day, reverse them so that index 0 is the oldest day, then copy element
   * `day` of each fetched array into record `day` (lines 195-230). A nil
   * fetch leaves its field nil on every day.
   */
  method FetchAndProcessHealthData(endDates: seq<Option<string>>, ids: seq<nat>, fetched: Fetched)
    returns (healthData: seq<HealthData>)
    requires |endDates| == 14 && |ids| == 14
    requires forall k :: 0 <= k < 14 ==> endDates[k].Some?
    requires CoversMerge(fetched)
    ensures |healthData| == 14
    ensures forall d :: 0 <= d < 14 ==>
      healthData[d].date == endDates[13 - d].value && healthData[d].id == ids[13 - d]
    ensures forall d :: 0 <= d < 14 ==>
      && healthData[d].steps == At(fetched.stepCounts, d)
      && healthData[d].sleepHours == At(fetched.sleepHours, d)
      && healthData[d].activeEnergy == At(fetched.caloriesBurned, d)
      && healthData[d].exerciseMinutes == At(fetched.exerciseTime, d)
      && healthData[d].bodyWeight == At(fetched.bodyMass, d)
    ensures forall d :: 0 <= d < 14 ==>
      && healthData[d].heartRate.None?
      && healthData[d].minutesInDaylight.None?
      && healthData[d].screenTimeSocialMedia.None?
      && healthData[d].screenTimeTotal.None?
  {
    var created := CreateRecords(endDates, ids);
    CreatedEveryDay(endDates, ids);
    healthData := Reversed(created);
    ghost var ordered := healthData;
    for day := 0 to 14
      invariant |healthData| == 14
      invariant forall d :: 0 <= d < day ==>
        healthData[d] == Blank(ordered[d].id, ordered[d].date).(
          steps := At(fetched.stepCounts, d),
          sleepHours := At(fetched.sleepHours, d),
          activeEnergy := At(fetched.caloriesBurned, d),
          exerciseMinutes := At(fetched.exerciseTime, d),
          bodyWeight := At(fetched.bodyMass, d))
      invariant forall d :: day <= d < 14 ==> healthData[d] == ordered[d]
    {
      healthData := healthData[day := healthData[day].(steps := At(fetched.stepCounts, day))];
      healthData := healthData[day := healthData[day].(sleepHours := At(fetched.sleepHours, day))];
      healthData := healthData[day := healthData[day].(activeEnergy := At(fetched.caloriesBurned, day))];
      healthData := healthData[day := healthData[day].(exerciseMinutes := At(fetched.exerciseTime, day))];
      healthData := healthData[day := healthData[day].(bodyWeight := At(fetched.bodyMass, day))];
    }
  }

}
