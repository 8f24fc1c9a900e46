/**
 * The state of the `DataAtAGlance` screen (iCUrHealth/DataAtAGlance.swift,
 * lines 76-80) and what its `onAppear` handler does to it (lines 134-388).
 */
module GlanceView {
  import opened Optional
  import opened HealthRecords
  import opened TrendAnalysis
  import opened CorrelationAnalysis

  class DataAtAGlance {
    var healthData: seq<HealthData>
    var predictions: seq<Analysis>
    var correlations: seq<CorrelationEntry>
    /** The `countZeroSleepAsNoSleep` setting, read from storage. */
    var countZeroSleepAsNoSleep: bool

    /** The predictions and correlations shown are those of the records shown. */
    predicate Consistent()
      reads this
    {
      && Analysable(healthData, countZeroSleepAsNoSleep)
      && predictions == Predictions(healthData, countZeroSleepAsNoSleep)
      && correlations == Correlations(healthData)
    }

    constructor (countZeroSleepAsNoSleep: bool)
      ensures healthData == [] && predictions == [] && correlations == []
      ensures this.countZeroSleepAsNoSleep == countZeroSleepAsNoSleep
    {
      healthData := [];
      predictions := [];
      correlations := [];
      this.countZeroSleepAsNoSleep := countZeroSleepAsNoSleep;
    }

    /**
     * `onAppear`: clear the predictions, then, once the fetch returns,
     * show its records, their predictions and their correlations.
     * `fetched` is what `fetchAndProcessHealthData` returned, None when it
     * threw; the task then ends with nothing else changed.
     */
    method OnAppear(fetched: Option<seq<HealthData>>)
      requires fetched.Some? ==> Analysable(fetched.value, countZeroSleepAsNoSleep)
      modifies this
      ensures countZeroSleepAsNoSleep == old(countZeroSleepAsNoSleep)
      ensures fetched.None? ==> predictions == [] && healthData == old(healthData) && correlations == old(correlations)
      ensures fetched.Some? ==> healthData == fetched.value && Consistent()
      ensures fetched.Some? ==> 3 <= |predictions| <= 4 && |correlations| <= 28
    {
      predictions := [];
      if fetched.None? {
        return;
      }
      healthData := fetched.value;
      var analysed := Analyse(healthData, countZeroSleepAsNoSleep);
      predictions := predictions + analysed;
      correlations := Correlate(healthData);
      CorrelationsAtMost28(healthData);
    }

    /**
     * `onAppear` with the Screen Time block skipped when a half has no
     * screen-time sample: the records the fetcher builds no longer trap.
     */
    method OnAppearGuarded(fetched: Option<seq<HealthData>>)
      requires fetched.Some? ==> GuardedAnalysable(fetched.value, countZeroSleepAsNoSleep)
      modifies this
      ensures countZeroSleepAsNoSleep == old(countZeroSleepAsNoSleep)
      ensures fetched.None? ==> predictions == [] && healthData == old(healthData) && correlations == old(correlations)
      ensures fetched.Some? ==> healthData == fetched.value
      ensures fetched.Some? ==> predictions == GuardedPredictions(healthData, countZeroSleepAsNoSleep)
      ensures fetched.Some? ==> correlations == Correlations(healthData)
      ensures fetched.Some? ==> 2 <= |predictions| <= 4 && |correlations| <= 28
    {
      predictions := [];
      if fetched.None? {
        return;
      }
      healthData := fetched.value;
      var analysed := AnalyseGuarded(healthData, countZeroSleepAsNoSleep);
      predictions := predictions + analysed;
      correlations := Correlate(healthData);
      CorrelationsAtMost28(healthData);
    }
  }

  /**
   * `fetchAndProcessHealthData` followed by the test the unguarded pass
   * needs: the fetched records never pass it, whatever the setting, since
   * none of them carries a screen-time value.
   */
  method FetchForGlance(endDates: seq<Option<string>>, ids: seq<nat>, fetched: Fetched)
    returns (healthData: seq<HealthData>)
    requires |endDates| == 14 && |ids| == 14
    requires forall k :: 0 <= k < 14 ==> endDates[k].Some?
    requires CoversMerge(fetched)
    ensures |healthData| == 14
    ensures !Analysable(healthData, false) && !Analysable(healthData, true)
  {
    healthData := FetchAndProcessHealthData(endDates, ids, fetched);
    NoScreenTimeNotAnalysable(healthData, false);
    NoScreenTimeNotAnalysable(healthData, true);
  }

}
