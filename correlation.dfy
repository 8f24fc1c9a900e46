/**
 * The correlation pass of `DataAtAGlance` (iCUrHealth/DataAtAGlance.swift,
 * lines 321-384) and the functions it uses: `pearsonCorrelation` (lines
 * 57-74) and `getFormattedSeriesLabel` (lines 18-39).
 *
 * The coefficient is kept symbolic, as `numerator / sqrt(radicand)`, with
 * the sums taken over exact reals. The source's test `denominator == 0` is
 * then decided as `radicand == 0`; the source computes the radicand in
 * Double, where rounding can make it non-zero (or zero) when the exact
 * value is not.
 */
module CorrelationAnalysis {
  import opened Optional
  import opened HealthRecords

  /** `propertyNames` (line 321), in the order the loop visits them. */
  const PropertyNames: seq<string> := [
    "steps", "activeEnergy", "exerciseMinutes", "sleepHours",
    "minutesInDaylight", "bodyWeight", "screenTimeSocialMedia", "screenTimeTotal"]

  /** The position of the first `name` in `names`, -1 when it is not there. */
  function IndexIn(names: seq<string>, name: string): (i: int)
    ensures -1 <= i < |names|
    decreases |names|
  {
    if names == [] then -1
    else if names[0] == name then 0
    else
      var k := IndexIn(names[1..], name);
      if k < 0 then -1 else k + 1
  }

  /** The position found holds `name`, and -1 means it is absent. */
  lemma {:induction false} IndexInFinds(names: seq<string>, name: string)
    ensures IndexIn(names, name) >= 0 ==> names[IndexIn(names, name)] == name
    ensures IndexIn(names, name) == -1 <==> name !in names
    decreases |names|
  {
    if names != [] && names[0] != name {
      IndexInFinds(names[1..], name);
      assert name in names <==> name in names[1..] by {
        assert names == [names[0]] + names[1..];
      }
    }
  }

  /** The position of `name` in `PropertyNames`, -1 when it is not there. */
  function NameIndex(name: string): (i: int)
    ensures -1 <= i < |PropertyNames|
  {
    IndexIn(PropertyNames, name)
  }

  /** In a list without repeats, each name is found where it is listed. */
  lemma {:induction false} IndexOfDistinct(names: seq<string>, i: int)
    requires 0 <= i < |names|
    requires forall a, b :: 0 <= a < b < |names| ==> names[a] != names[b]
    ensures IndexIn(names, names[i]) == i
    decreases |names|
  {
    if i > 0 {
      var rest := names[1..];
      assert names[0] != names[i];
      assert rest[i - 1] == names[i];
      assert forall a, b :: 0 <= a < b < |rest| ==> rest[a] != rest[b] by {
        forall a, b | 0 <= a < b < |rest|
          ensures rest[a] != rest[b]
        {
          assert rest[a] == names[a + 1] && rest[b] == names[b + 1];
        }
      }
      IndexOfDistinct(rest, i - 1);
    }
  }

  /** The eight names are distinct, so a name's position is the one it is listed at. */
  lemma NameIndexOfName(i: int)
    requires 0 <= i < |PropertyNames|
    ensures NameIndex(PropertyNames[i]) == i
  {
    assert forall a, b :: 0 <= a < b < |PropertyNames| ==> PropertyNames[a] != PropertyNames[b];
    IndexOfDistinct(PropertyNames, i);
  }

  /** A name that is not one of the eight is not found; one that is found is the name listed there. */
  lemma NameIndexFinds(name: string)
    ensures NameIndex(name) == -1 <==> name !in PropertyNames
    ensures NameIndex(name) >= 0 ==> PropertyNames[NameIndex(name)] == name
  {
    IndexInFinds(PropertyNames, name);
  }

  /** `getFormattedSeriesLabel`: a display label, "" for a name it does not know. */
  function FormattedSeriesLabel(series: string): (caption: string)
    ensures caption == "" <==> series !in PropertyNames
  {
    if series == "steps" then "Steps"
    else if series == "activeEnergy" then "Active Energy"
    else if series == "exerciseMinutes" then "Exercise Minutes"
    else if series == "sleepHours" then "Sleep Hours"
    else if series == "minutesInDaylight" then "Minutes In Daylight"
    else if series == "bodyWeight" then "Body Weight"
    else if series == "screenTimeSocialMedia" then "Time Spent browsing Social Media"
    else if series == "screenTimeTotal" then "Total Screen Time"
    else ""
  }

  /** Two different series never share a label. */
  lemma LabelsDistinct(i: int, j: int)
    requires 0 <= i < |PropertyNames| && 0 <= j < |PropertyNames| && i != j
    ensures FormattedSeriesLabel(PropertyNames[i]) != FormattedSeriesLabel(PropertyNames[j])
  {
  }

  /** The field each property name stands for, position by position. */
  const PropertyMetrics: seq<Metric> := [
    Steps, ActiveEnergy, ExerciseMinutes, SleepHours,
    MinutesInDaylight, BodyWeight, ScreenTimeSocialMedia, ScreenTimeTotal]

  /**
   * The `switch` statements at lines 329-369: the key path a name selects,
   * or `fallback` (the declared default) when no case matches.
   */
  function KeyPath(name: string, fallback: Metric): Metric
  {
    if name == "steps" then Steps
    else if name == "activeEnergy" then ActiveEnergy
    else if name == "exerciseMinutes" then ExerciseMinutes
    else if name == "sleepHours" then SleepHours
    else if name == "minutesInDaylight" then MinutesInDaylight
    else if name == "screenTimeTotal" then ScreenTimeTotal
    else if name == "screenTimeSocialMedia" then ScreenTimeSocialMedia
    else if name == "bodyWeight" then BodyWeight
    else fallback
  }

  /** Each listed name selects its own field, and any other name the default. */
  lemma KeyPathSelects(name: string, fallback: Metric)
    ensures forall i :: 0 <= i < |PropertyNames| && name == PropertyNames[i] ==> KeyPath(name, fallback) == PropertyMetrics[i]
    ensures name !in PropertyNames ==> KeyPath(name, fallback) == fallback
  {
  }

  /** Every listed name has its case, so the default never applies and distinct names pick distinct fields. */
  lemma KeyPathsDistinct(i: int, j: int, fallback1: Metric, fallback2: Metric)
    requires 0 <= i < |PropertyNames| && 0 <= j < |PropertyNames|
    ensures KeyPath(PropertyNames[i], fallback1) == KeyPath(PropertyNames[i], fallback2)
    ensures i != j ==> KeyPath(PropertyNames[i], fallback1) != KeyPath(PropertyNames[j], fallback2)
  {
  }

  // ---------------------------------------------------------------------
  // The paired series of one pair of metrics (lines 372-374)

  predicate BothPresent(r: HealthData, m1: Metric, m2: Metric)
  {
    Value(r, m1).Some? && Value(r, m2).Some?
  }

  /** `healthData.filter { both key paths non-nil }`. */
  function Filtered(days: seq<HealthData>, m1: Metric, m2: Metric): seq<HealthData>
  {
    Keep(days, PairedDay(m1, m2))
  }

  /** `days.compactMap { $0[keyPath: m] }`. */
  function CompactMap(days: seq<HealthData>, m: Metric): seq<real>
    decreases |days|
  {
    if days == [] then []
    else (match Value(days[0], m) case Some(v) => [v] case None => []) + CompactMap(days[1..], m)
  }

  /** On days where `m` is always present, compactMap keeps one value per day, in order. */
  lemma {:induction false} CompactMapAllPresent(days: seq<HealthData>, m: Metric)
    requires forall k :: 0 <= k < |days| ==> Value(days[k], m).Some?
    ensures |CompactMap(days, m)| == |days|
    ensures forall k :: 0 <= k < |days| ==> Value(days[k], m) == Some(CompactMap(days, m)[k])
    decreases |days|
  {
    if days != [] {
      CompactMapAllPresent(days[1..], m);
    }
  }

  /** The elements of `s` satisfying `p`, in order: the filter, for any element type. */
  function Keep<T>(s: seq<T>, p: T -> bool): seq<T>
    decreases |s|
  {
    if s == [] then []
    else (if p(s[0]) then [s[0]] else []) + Keep(s[1..], p)
  }

  /** The positions, counted from `base`, of the elements `Keep` keeps, in order. */
  function KeptFrom<T>(s: seq<T>, p: T -> bool, base: nat): seq<nat>
    decreases |s|
  {
    if s == [] then []
    else (if p(s[0]) then [base] else []) + KeptFrom(s[1..], p, base + 1)
  }

  lemma {:induction false} KeptBounds<T>(s: seq<T>, p: T -> bool, base: nat)
    ensures |KeptFrom(s, p, base)| == |Keep(s, p)|
    ensures forall k :: 0 <= k < |KeptFrom(s, p, base)| ==> base <= KeptFrom(s, p, base)[k] < base + |s|
    decreases |s|
  {
    if s != [] {
      KeptBounds(s[1..], p, base + 1);
    }
  }

  lemma {:induction false} KeptSelectsAt<T>(s: seq<T>, p: T -> bool, base: nat, k: nat)
    requires k < |KeptFrom(s, p, base)|
    ensures base <= KeptFrom(s, p, base)[k] < base + |s|
    ensures k < |Keep(s, p)|
    ensures Keep(s, p)[k] == s[KeptFrom(s, p, base)[k] - base]
    decreases |s|
  {
    var tail := s[1..];
    var rest := KeptFrom(tail, p, base + 1);
    var idx := KeptFrom(s, p, base);
    var kept := Keep(s, p);
    if p(s[0]) {
      assert |idx| == 1 + |rest|;
      if k > 0 {
        KeptSelectsAt(tail, p, base + 1, k - 1);
        assert idx[k] == rest[k - 1];
        assert kept[k] == Keep(tail, p)[k - 1];
        assert tail[rest[k - 1] - (base + 1)] == s[rest[k - 1] - base];
      }
    } else {
      assert idx == rest;
      KeptSelectsAt(tail, p, base + 1, k);
      assert kept[k] == Keep(tail, p)[k];
      assert tail[rest[k] - (base + 1)] == s[rest[k] - base];
    }
  }

  lemma {:induction false} KeptIncreasing<T>(s: seq<T>, p: T -> bool, base: nat)
    ensures forall k, l :: 0 <= k < l < |KeptFrom(s, p, base)| ==> KeptFrom(s, p, base)[k] < KeptFrom(s, p, base)[l]
    decreases |s|
  {
    if s != [] {
      var rest := KeptFrom(s[1..], p, base + 1);
      KeptIncreasing(s[1..], p, base + 1);
      if p(s[0]) {
        KeptBounds(s[1..], p, base + 1);
        var idx := KeptFrom(s, p, base);
        assert idx == [base] + rest;
        forall k, l | 0 <= k < l < |idx|
          ensures idx[k] < idx[l]
        {
          assert idx[l] == rest[l - 1];
          if k > 0 {
            assert idx[k] == rest[k - 1];
          }
        }
      }
    }
  }

  lemma {:induction false} KeptComplete<T>(s: seq<T>, p: T -> bool, base: nat)
    ensures forall q :: 0 <= q < |s| && p(s[q]) ==> base + q in KeptFrom(s, p, base)
    decreases |s|
  {
    if s != [] {
      var tail := s[1..];
      var rest := KeptFrom(tail, p, base + 1);
      var idx := KeptFrom(s, p, base);
      KeptComplete(tail, p, base + 1);
      assert idx == (if p(s[0]) then [base] else []) + rest;
      forall q | 0 < q < |s| && p(s[q])
        ensures base + q in idx
      {
        assert tail[q - 1] == s[q];
        assert (base + 1) + (q - 1) in rest;
      }
    }
  }

  /** The test the source's filter applies to a day. */
  function PairedDay(m1: Metric, m2: Metric): HealthData -> bool
  {
    d => BothPresent(d, m1, m2)
  }

  /** The positions in `days` of the days the filter keeps. */
  function KeptIndices(days: seq<HealthData>, m1: Metric, m2: Metric): seq<nat>
  {
    KeptFrom(days, PairedDay(m1, m2), 0)
  }

  lemma {:induction false} FilteredMembership(days: seq<HealthData>, m1: Metric, m2: Metric)
    ensures |Filtered(days, m1, m2)| <= |days|
    ensures forall k :: 0 <= k < |Filtered(days, m1, m2)| ==> BothPresent(Filtered(days, m1, m2)[k], m1, m2)
    ensures forall r :: r in Filtered(days, m1, m2) <==> r in days && BothPresent(r, m1, m2)
    decreases |days|
  {
    if days != [] {
      FilteredMembership(days[1..], m1, m2);
      assert days == [days[0]] + days[1..];
    }
  }

  lemma FilteredInOrder(days: seq<HealthData>, m1: Metric, m2: Metric)
    ensures var idx := KeptIndices(days, m1, m2);
      && |idx| == |Filtered(days, m1, m2)|
      && (forall k :: 0 <= k < |idx| ==> idx[k] < |days| && Filtered(days, m1, m2)[k] == days[idx[k]])
      && (forall k, l :: 0 <= k < l < |idx| ==> idx[k] < idx[l])
      && (forall p :: 0 <= p < |days| && BothPresent(days[p], m1, m2) ==> p in idx)
  {
    var keep := PairedDay(m1, m2);
    KeptBounds(days, keep, 0);
    KeptIncreasing(days, keep, 0);
    KeptComplete(days, keep, 0);
    forall k | 0 <= k < |KeptIndices(days, m1, m2)|
      ensures Filtered(days, m1, m2)[k] == days[KeptIndices(days, m1, m2)[k]]
    {
      KeptSelectsAt(days, keep, 0, k);
    }
    forall p | 0 <= p < |days| && BothPresent(days[p], m1, m2)
      ensures p in KeptIndices(days, m1, m2)
    {
      assert keep(days[p]);
    }
  }

  /**
   * The filter keeps exactly the days where both metrics are present, in
   * their original order: `KeptIndices` lists their positions, increasing,
   * and the k-th kept day is the day at the k-th position.
   */
  lemma FilteredKeepsPairedDays(days: seq<HealthData>, m1: Metric, m2: Metric)
    ensures |Filtered(days, m1, m2)| <= |days|
    ensures forall k :: 0 <= k < |Filtered(days, m1, m2)| ==> BothPresent(Filtered(days, m1, m2)[k], m1, m2)
    ensures forall r :: r in Filtered(days, m1, m2) <==> r in days && BothPresent(r, m1, m2)
    ensures var idx := KeptIndices(days, m1, m2);
      && |idx| == |Filtered(days, m1, m2)|
      && (forall k :: 0 <= k < |idx| ==> idx[k] < |days| && Filtered(days, m1, m2)[k] == days[idx[k]])
      && (forall k, l :: 0 <= k < l < |idx| ==> idx[k] < idx[l])
      && (forall p :: 0 <= p < |days| && BothPresent(days[p], m1, m2) ==> p in idx)
  {
    FilteredMembership(days, m1, m2);
    FilteredInOrder(days, m1, m2);
  }

  /**
   * `xs` and `ys` have one entry per day with both metrics present, and the
   * k-th entries are the two values of the same day.
   */
  lemma PairedSeries(days: seq<HealthData>, m1: Metric, m2: Metric)
    ensures var f := Filtered(days, m1, m2);
      && |CompactMap(f, m1)| == |CompactMap(f, m2)| == |f| == |KeptIndices(days, m1, m2)|
      && forall k :: 0 <= k < |f| ==>
           Value(f[k], m1) == Some(CompactMap(f, m1)[k]) && Value(f[k], m2) == Some(CompactMap(f, m2)[k])
  {
    var f := Filtered(days, m1, m2);
    FilteredKeepsPairedDays(days, m1, m2);
    CompactMapAllPresent(f, m1);
    CompactMapAllPresent(f, m2);
  }

  /** The filter does not depend on which metric is named first. */
  lemma {:induction false} FilteredSymmetric(days: seq<HealthData>, m1: Metric, m2: Metric)
    ensures Filtered(days, m1, m2) == Filtered(days, m2, m1)
    decreases |days|
  {
    if days != [] {
      FilteredSymmetric(days[1..], m1, m2);
    }
  }

  // ---------------------------------------------------------------------
  // pearsonCorrelation (lines 57-74)

  /** `xs.reduce(0, +)`. */
  function Sum(xs: seq<real>): real
    decreases |xs|
  {
    if xs == [] then 0.0 else xs[0] + Sum(xs[1..])
  }

  /** `xs.map { $0 * $0 }.reduce(0, +)`. */
  function SumOfSquares(xs: seq<real>): real
    decreases |xs|
  {
    if xs == [] then 0.0 else xs[0] * xs[0] + SumOfSquares(xs[1..])
  }

  /** `zip(xs, ys).map(*).reduce(0, +)`: zip stops at the shorter sequence. */
  function SumOfProducts(xs: seq<real>, ys: seq<real>): real
    decreases |xs|
  {
    if xs == [] || ys == [] then 0.0 else xs[0] * ys[0] + SumOfProducts(xs[1..], ys[1..])
  }

  /** A coefficient `numerator / sqrt(radicand)`. */
  datatype Coefficient = Coefficient(numerator: real, radicand: real)

  /**
   * `n * sumX2 - pow(sumX, 2)`, the spread of one series, where `n` is the
   * one count the source uses for both series: that of `xs`.
   */
  function Spread(xs: seq<real>, n: nat): real
  {
    (n as real) * SumOfSquares(xs) - Sum(xs) * Sum(xs)
  }

  /** `n * sumXY - sumX * sumY`. */
  function Numerator(xs: seq<real>, ys: seq<real>): real
  {
    (|xs| as real) * SumOfProducts(xs, ys) - Sum(xs) * Sum(ys)
  }

  /**
   * `pearsonCorrelation(xs:ys:)`: nil when `sqrt(radicand)`, the
   * denominator, is 0, which is when the radicand is 0.
   */
  function Pearson(xs: seq<real>, ys: seq<real>): Option<Coefficient>
  {
    var radicand := Spread(xs, |xs|) * Spread(ys, |xs|);
    if radicand == 0.0 then None else Some(Coefficient(Numerator(xs, ys), radicand))
  }

  /**
   * A coefficient exists exactly when both series vary, each spread taken
   * with the count of `xs`; its radicand is then non-zero.
   */
  lemma PearsonDefinedIffBothVary(xs: seq<real>, ys: seq<real>)
    ensures Pearson(xs, ys).None? <==> Spread(xs, |xs|) == 0.0 || Spread(ys, |xs|) == 0.0
    ensures Pearson(xs, ys).Some? ==> Pearson(xs, ys).value.radicand == Spread(xs, |xs|) * Spread(ys, |xs|)
  {
  }

  /**
   * The count is that of `xs` alone: [1, 2] against [1, 1, 0] has no
   * coefficient, since [1, 1, 0] does not vary when counted as 2 values,
   * while [1, 2, 4] against the constant [3, 3] has one.
   */
  lemma PearsonCountsFirstSeries()
    ensures Pearson([1.0, 2.0], [1.0, 1.0, 0.0]).None?
    ensures Pearson([1.0, 2.0, 4.0], [3.0, 3.0]).Some?
  {
    assert Sum([1.0, 1.0, 0.0]) == 2.0 && SumOfSquares([1.0, 1.0, 0.0]) == 2.0;
    assert Sum([1.0, 2.0, 4.0]) == 7.0 && SumOfSquares([1.0, 2.0, 4.0]) == 21.0;
    assert Sum([3.0, 3.0]) == 6.0 && SumOfSquares([3.0, 3.0]) == 18.0;
  }

  lemma {:induction false} SumOfProductsSymmetric(xs: seq<real>, ys: seq<real>)
    ensures SumOfProducts(xs, ys) == SumOfProducts(ys, xs)
    decreases |xs|
  {
    if xs != [] && ys != [] {
      SumOfProductsSymmetric(xs[1..], ys[1..]);
    }
  }

  /** Swapping two series of equal length leaves the coefficient as it is. */
  lemma PearsonSymmetric(xs: seq<real>, ys: seq<real>)
    requires |xs| == |ys|
    ensures Pearson(xs, ys) == Pearson(ys, xs)
  {
    SumOfProductsSymmetric(xs, ys);
    assert Numerator(xs, ys) == Numerator(ys, xs);
    assert Spread(xs, |xs|) * Spread(ys, |xs|) == Spread(ys, |ys|) * Spread(xs, |ys|);
  }

  lemma {:induction false} ConstantSums(xs: seq<real>, c: real)
    requires forall k :: 0 <= k < |xs| ==> xs[k] == c
    ensures Sum(xs) == (|xs| as real) * c
    ensures SumOfSquares(xs) == (|xs| as real) * c * c
    decreases |xs|
  {
    if xs != [] {
      ConstantSums(xs[1..], c);
    }
  }

  /**
   * A series without variance, which includes any series of fewer than two
   * values, has no correlation as the first series, and as the second when
   * the first has as many values (the count used is the first series').
   */
  lemma ConstantSeriesUndefined(xs: seq<real>, ys: seq<real>, c: real)
    requires forall k :: 0 <= k < |xs| ==> xs[k] == c
    ensures Pearson(xs, ys).None?
    ensures |xs| == |ys| ==> Pearson(ys, xs).None?
  {
    ConstantSums(xs, c);
    var n := |xs| as real;
    assert Spread(xs, |xs|) == n * (n * c * c) - (n * c) * (n * c);
    assert n * (n * c * c) == (n * c) * (n * c);
    assert Spread(xs, |xs|) == 0.0;
    assert Spread(xs, |xs|) * Spread(ys, |xs|) == 0.0;
    if |xs| == |ys| {
      assert Spread(ys, |ys|) * Spread(xs, |ys|) == 0.0;
    }
  }

  // ---------------------------------------------------------------------
  // The pair loop (lines 321-384)

  /** `CorrelationEntry` without its UUID: the two names and the coefficient. */
  datatype CorrelationEntry = CorrelationEntry(series1: string, series2: string, pValue: Coefficient)

  /** What the body of the inner loop computes for the pair (i, j). */
  function PairCoefficient(records: seq<HealthData>, i: nat, j: nat): Option<Coefficient>
    requires i < |PropertyNames| && j < |PropertyNames|
  {
    var series1KeyPath := KeyPath(PropertyNames[i], Steps);
    var series2KeyPath := KeyPath(PropertyNames[j], ActiveEnergy);
    var filteredData := Filtered(records, series1KeyPath, series2KeyPath);
    Pearson(CompactMap(filteredData, series1KeyPath), CompactMap(filteredData, series2KeyPath))
  }

  /** An 8 by 8 table holding, at [i][j], the coefficient of the names i and j. */
  type Table = seq<seq<Option<Coefficient>>>

  predicate Square(t: Table)
  {
    |t| == |PropertyNames| && forall i :: 0 <= i < |t| ==> |t[i]| == |PropertyNames|
  }

  /** The coefficient of every pair of the records. */
  function Coefficients(records: seq<HealthData>): (t: Table)
    ensures Square(t)
    ensures forall i, j :: 0 <= i < |PropertyNames| && 0 <= j < |PropertyNames| ==> t[i][j] == PairCoefficient(records, i, j)
  {
    seq(|PropertyNames|, i requires 0 <= i < |PropertyNames| =>
      seq(|PropertyNames|, j requires 0 <= j < |PropertyNames| => PairCoefficient(records, i, j)))
  }

  /** What the inner loop appends for the pair (i, j): one entry or none. */
  function PairEntries(t: Table, i: nat, j: nat): seq<CorrelationEntry>
    requires Square(t) && i < |PropertyNames| && j < |PropertyNames|
  {
    match t[i][j]
    case Some(c) => [CorrelationEntry(PropertyNames[i], PropertyNames[j], c)]
    case None => []
  }

  /** What the inner loop has appended for row i once it reaches j: the pairs (i, j') with i < j' < j. */
  function RowEntries(t: Table, i: nat, j: nat): seq<CorrelationEntry>
    requires Square(t) && i < j <= |PropertyNames|
    decreases j
  {
    if j == i + 1 then [] else RowEntries(t, i, j - 1) + PairEntries(t, i, j - 1)
  }

  /** What the outer loop has appended before row i. */
  function TableEntries(t: Table, i: nat): seq<CorrelationEntry>
    requires Square(t) && i <= |PropertyNames|
    decreases i
  {
    if i == 0 then [] else TableEntries(t, i - 1) + RowEntries(t, i - 1, |PropertyNames|)
  }

  /** `correlationEntries` once both loops are done. */
  function Correlations(records: seq<HealthData>): seq<CorrelationEntry>
  {
    TableEntries(Coefficients(records), |PropertyNames|)
  }

  /** The loop at lines 324-382: every pair i < j of the eight metrics, reported when its coefficient exists. */
  method Correlate(healthData: seq<HealthData>) returns (correlationEntries: seq<CorrelationEntry>)
    ensures correlationEntries == Correlations(healthData)
  {
    correlationEntries := [];
    for i := 0 to |PropertyNames|
      invariant correlationEntries == TableEntries(Coefficients(healthData), i)
    {
      correlationEntries := CorrelateRow(healthData, i, correlationEntries);
    }
  }

  /** Visiting the pair (i, j) appends its entry when its coefficient is defined. */
  lemma RowStep(records: seq<HealthData>, i: nat, j: nat)
    requires i < j < |PropertyNames|
    ensures RowEntries(Coefficients(records), i, j + 1) ==
      RowEntries(Coefficients(records), i, j) +
      (match PairCoefficient(records, i, j)
       case Some(c) => [CorrelationEntry(PropertyNames[i], PropertyNames[j], c)]
       case None => [])
  {
  }

  /** One pass of the inner loop: the pairs (i, j) with i < j, in order. */
  method CorrelateRow(healthData: seq<HealthData>, i: nat, entries: seq<CorrelationEntry>)
    returns (correlationEntries: seq<CorrelationEntry>)
    requires i < |PropertyNames|
    ensures correlationEntries == entries + RowEntries(Coefficients(healthData), i, |PropertyNames|)
  {
    var propertyNames := PropertyNames;
    correlationEntries := entries;
    for j := i + 1 to |propertyNames|
      invariant correlationEntries == entries + RowEntries(Coefficients(healthData), i, j)
    {
      var series1KeyPath := KeyPath(propertyNames[i], Steps);
      var series2KeyPath := KeyPath(propertyNames[j], ActiveEnergy);
      var filteredData := Filtered(healthData, series1KeyPath, series2KeyPath);
      var xs := CompactMap(filteredData, series1KeyPath);
      var ys := CompactMap(filteredData, series2KeyPath);
      var correlation := Pearson(xs, ys);
      RowStep(healthData, i, j);
      if correlation.Some? {
        correlationEntries := correlationEntries + [CorrelationEntry(propertyNames[i], propertyNames[j], correlation.value)];
      }
    }
  }

  // ---------------------------------------------------------------------
  // What the pair loop produces, for any table of coefficients

  /** Where the pair of an entry comes in the loop's visiting order. */
  function Position(e: CorrelationEntry): int
  {
    8 * NameIndex(e.series1) + NameIndex(e.series2)
  }

  /** The entry is the one the loop appends for its own pair i < j, with that pair's coefficient. */
  predicate Reported(t: Table, e: CorrelationEntry)
    requires Square(t)
  {
    var i, j := NameIndex(e.series1), NameIndex(e.series2);
    0 <= i < j < |PropertyNames| && t[i][j] == Some(e.pValue)
  }

  predicate InPairOrder(es: seq<CorrelationEntry>)
  {
    forall k, l :: 0 <= k < l < |es| ==> Position(es[k]) < Position(es[l])
  }

  lemma ConcatInPairOrder(a: seq<CorrelationEntry>, b: seq<CorrelationEntry>, bound: int)
    requires InPairOrder(a) && InPairOrder(b)
    requires forall k :: 0 <= k < |a| ==> Position(a[k]) < bound
    requires forall k :: 0 <= k < |b| ==> bound <= Position(b[k])
    ensures InPairOrder(a + b)
  {
    forall k, l | 0 <= k < l < |a + b|
      ensures Position((a + b)[k]) < Position((a + b)[l])
    {
      if l < |a| {
      } else if k >= |a| {
        assert (a + b)[k] == b[k - |a|] && (a + b)[l] == b[l - |a|];
      } else {
        assert (a + b)[l] == b[l - |a|];
      }
    }
  }

  lemma PairPositions(t: Table, i: nat, j: nat)
    requires Square(t) && i < j < |PropertyNames|
    ensures forall k :: 0 <= k < |PairEntries(t, i, j)| ==> Position(PairEntries(t, i, j)[k]) == 8 * i + j
  {
    NameIndexOfName(i);
    NameIndexOfName(j);
  }

  lemma PairSound(t: Table, i: nat, j: nat)
    requires Square(t) && i < j < |PropertyNames|
    ensures forall k :: 0 <= k < |PairEntries(t, i, j)| ==>
      Reported(t, PairEntries(t, i, j)[k]) && NameIndex(PairEntries(t, i, j)[k].series1) == i
  {
    NameIndexOfName(i);
    NameIndexOfName(j);
  }

  /** Row i up to j holds at most one entry per pair visited. */
  lemma {:induction false} RowLength(t: Table, i: nat, j: nat)
    requires Square(t) && i < j <= |PropertyNames|
    ensures |RowEntries(t, i, j)| <= j - i - 1
    decreases j
  {
    if j > i + 1 {
      RowLength(t, i, j - 1);
    }
  }

  /** Row i up to j holds only reported entries for pairs (i, j'). */
  lemma {:induction false} RowSound(t: Table, i: nat, j: nat)
    requires Square(t) && i < j <= |PropertyNames|
    ensures forall k :: 0 <= k < |RowEntries(t, i, j)| ==>
      Reported(t, RowEntries(t, i, j)[k]) && NameIndex(RowEntries(t, i, j)[k].series1) == i
    decreases j
  {
    if j > i + 1 {
      RowSound(t, i, j - 1);
      PairSound(t, i, j - 1);
    }
  }

  /** Row i up to j holds entries for pairs (i, j') with j' < j. */
  lemma {:induction false} RowPositions(t: Table, i: nat, j: nat)
    requires Square(t) && i < j <= |PropertyNames|
    ensures forall k :: 0 <= k < |RowEntries(t, i, j)| ==> 8 * i + i < Position(RowEntries(t, i, j)[k]) < 8 * i + j
    decreases j
  {
    if j > i + 1 {
      RowPositions(t, i, j - 1);
      PairPositions(t, i, j - 1);
    }
  }

  lemma {:induction false} RowInPairOrder(t: Table, i: nat, j: nat)
    requires Square(t) && i < j <= |PropertyNames|
    ensures InPairOrder(RowEntries(t, i, j))
    decreases j
  {
    if j > i + 1 {
      RowInPairOrder(t, i, j - 1);
      RowPositions(t, i, j - 1);
      PairPositions(t, i, j - 1);
      ConcatInPairOrder(RowEntries(t, i, j - 1), PairEntries(t, i, j - 1), 8 * i + j - 1);
    }
  }

  /** Every defined pair (i, j') visited in row i has its entry. */
  lemma {:induction false} RowComplete(t: Table, i: nat, j: nat)
    requires Square(t) && i < j <= |PropertyNames|
    ensures forall j' :: i < j' < j && t[i][j'].Some? ==>
      CorrelationEntry(PropertyNames[i], PropertyNames[j'], t[i][j'].value) in RowEntries(t, i, j)
    decreases j
  {
    if j > i + 1 {
      var prefix := RowEntries(t, i, j - 1);
      var last := PairEntries(t, i, j - 1);
      assert RowEntries(t, i, j) == prefix + last;
      RowComplete(t, i, j - 1);
      forall j' | i < j' < j && t[i][j'].Some?
        ensures CorrelationEntry(PropertyNames[i], PropertyNames[j'], t[i][j'].value) in prefix + last
      {
        var e := CorrelationEntry(PropertyNames[i], PropertyNames[j'], t[i][j'].value);
        if j' < j - 1 {
          assert e in prefix;
        } else {
          assert e in last;
        }
      }
    }
  }

  /** The number of pairs (i', j) with i' < i and i' < j < 8. */
  function PairsBefore(i: nat): nat
    requires i <= 8
  {
    if i == 0 then 0 else PairsBefore(i - 1) + (8 - i)
  }

  lemma {:induction false} TableLength(t: Table, i: nat)
    requires Square(t) && i <= |PropertyNames|
    ensures |TableEntries(t, i)| <= PairsBefore(i)
    decreases i
  {
    if i > 0 {
      TableLength(t, i - 1);
      RowLength(t, i - 1, |PropertyNames|);
    }
  }

  /** The rows before i hold only reported entries for pairs (i', j) with i' < i. */
  lemma {:induction false} TableSound(t: Table, i: nat)
    requires Square(t) && i <= |PropertyNames|
    ensures forall k :: 0 <= k < |TableEntries(t, i)| ==>
      Reported(t, TableEntries(t, i)[k]) && NameIndex(TableEntries(t, i)[k].series1) < i
    decreases i
  {
    if i > 0 {
      TableSound(t, i - 1);
      RowSound(t, i - 1, |PropertyNames|);
    }
  }

  lemma {:induction false} TablePositions(t: Table, i: nat)
    requires Square(t) && i <= |PropertyNames|
    ensures forall k :: 0 <= k < |TableEntries(t, i)| ==> Position(TableEntries(t, i)[k]) < 8 * i
    decreases i
  {
    if i > 0 {
      TablePositions(t, i - 1);
      RowPositions(t, i - 1, |PropertyNames|);
    }
  }

  lemma {:induction false} TableInPairOrder(t: Table, i: nat)
    requires Square(t) && i <= |PropertyNames|
    ensures InPairOrder(TableEntries(t, i))
    decreases i
  {
    if i > 0 {
      TableInPairOrder(t, i - 1);
      TablePositions(t, i - 1);
      RowInPairOrder(t, i - 1, |PropertyNames|);
      RowPositions(t, i - 1, |PropertyNames|);
      ConcatInPairOrder(TableEntries(t, i - 1), RowEntries(t, i - 1, |PropertyNames|), 8 * (i - 1));
    }
  }

  lemma {:induction false} TableComplete(t: Table, i: nat)
    requires Square(t) && i <= |PropertyNames|
    ensures forall i', j' :: 0 <= i' < i && i' < j' < |PropertyNames| && t[i'][j'].Some? ==>
      CorrelationEntry(PropertyNames[i'], PropertyNames[j'], t[i'][j'].value) in TableEntries(t, i)
    decreases i
  {
    if i > 0 {
      var prefix := TableEntries(t, i - 1);
      var row := RowEntries(t, i - 1, |PropertyNames|);
      assert TableEntries(t, i) == prefix + row;
      TableComplete(t, i - 1);
      RowComplete(t, i - 1, |PropertyNames|);
      forall i', j' | 0 <= i' < i && i' < j' < |PropertyNames| && t[i'][j'].Some?
        ensures CorrelationEntry(PropertyNames[i'], PropertyNames[j'], t[i'][j'].value) in prefix + row
      {
        var e := CorrelationEntry(PropertyNames[i'], PropertyNames[j'], t[i'][j'].value);
        if i' < i - 1 {
          assert e in prefix;
        } else {
          assert e in row;
        }
      }
    }
  }

  /** At most one entry for each of the 28 pairs. */
  lemma CorrelationsAtMost28(records: seq<HealthData>)
    ensures |Correlations(records)| <= 28
  {
    TableLength(Coefficients(records), |PropertyNames|);
    assert PairsBefore(|PropertyNames|) == 28;
  }

  /** Each entry names a pair i < j of the listed metrics and carries that pair's defined coefficient. */
  lemma CorrelationsSound(records: seq<HealthData>, e: CorrelationEntry)
    requires e in Correlations(records)
    ensures 0 <= NameIndex(e.series1) < NameIndex(e.series2) < |PropertyNames|
    ensures PairCoefficient(records, NameIndex(e.series1), NameIndex(e.series2)) == Some(e.pValue)
  {
    TableSound(Coefficients(records), |PropertyNames|);
    var k :| 0 <= k < |Correlations(records)| && Correlations(records)[k] == e;
    assert Reported(Coefficients(records), e);
  }

  /** Every pair i < j whose coefficient is defined has its entry. */
  lemma CorrelationsComplete(records: seq<HealthData>, i: nat, j: nat)
    requires i < j < |PropertyNames|
    requires PairCoefficient(records, i, j).Some?
    ensures CorrelationEntry(PropertyNames[i], PropertyNames[j], PairCoefficient(records, i, j).value) in Correlations(records)
  {
    TableComplete(Coefficients(records), |PropertyNames|);
  }

  /** The entries follow the loop's pair order, so no pair is reported twice. */
  lemma CorrelationsInPairOrder(records: seq<HealthData>)
    ensures InPairOrder(Correlations(records))
  {
    TableInPairOrder(Coefficients(records), |PropertyNames|);
  }

  /**
   * When metric i takes one value on every day it is present, no pair
   * (i, j) is reported: its paired series has no variance.
   */
  lemma ConstantMetricUnreported(records: seq<HealthData>, i: nat, j: nat, c: real)
    requires i < j < |PropertyNames|
    requires forall r :: r in records && Value(r, KeyPath(PropertyNames[i], Steps)).Some? ==>
      Value(r, KeyPath(PropertyNames[i], Steps)).value == c
    ensures PairCoefficient(records, i, j).None?
    ensures forall e :: e in Correlations(records) ==> !(e.series1 == PropertyNames[i] && e.series2 == PropertyNames[j])
  {
    var m1 := KeyPath(PropertyNames[i], Steps);
    var m2 := KeyPath(PropertyNames[j], ActiveEnergy);
    var f := Filtered(records, m1, m2);
    PairedSeries(records, m1, m2);
    FilteredKeepsPairedDays(records, m1, m2);
    var xs := CompactMap(f, m1);
    forall k | 0 <= k < |xs| ensures xs[k] == c {
      assert f[k] in f;
    }
    ConstantSeriesUndefined(xs, CompactMap(f, m2), c);
    NameIndexOfName(i);
    NameIndexOfName(j);
    forall e | e in Correlations(records) ensures !(e.series1 == PropertyNames[i] && e.series2 == PropertyNames[j]) {
      CorrelationsSound(records, e);
    }
  }

  /** The coefficient of two metrics does not depend on which one is taken as x. */
  lemma PairOrderIrrelevant(records: seq<HealthData>, m1: Metric, m2: Metric)
    ensures Pearson(CompactMap(Filtered(records, m1, m2), m1), CompactMap(Filtered(records, m1, m2), m2))
         == Pearson(CompactMap(Filtered(records, m2, m1), m2), CompactMap(Filtered(records, m2, m1), m1))
  {
    FilteredSymmetric(records, m1, m2);
    PairedSeries(records, m1, m2);
    PearsonSymmetric(CompactMap(Filtered(records, m1, m2), m1), CompactMap(Filtered(records, m1, m2), m2));
  }

}
