/**
 * The trend-series helpers of iCUrHealth/HealthChart.swift (lines 11-21):
 * a flat series at the average, one point per chart point, and the chart
 * with that series appended.
 */
module HealthChart {

  /**
   * A `chartData` point. The declaration is not part of this model; these
   * are the three fields the helpers use, the date as a number.
   */
  datatype ChartPoint = ChartPoint(tag: string, dateInterval: real, data: real)

  /** The tag `generateTrendData` gives its points. */
  const TrendTag: string := "trend"

  /** `generateTrendData(chart:average:)`: a "trend" point at the average for each chart point, in order. */
  method GenerateTrendData(chart: seq<ChartPoint>, average: real) returns (trendData: seq<ChartPoint>)
    ensures |trendData| == |chart|
    ensures forall k :: 0 <= k < |chart| ==>
      trendData[k].tag == TrendTag && trendData[k].data == average && trendData[k].dateInterval == chart[k].dateInterval
  {
    trendData := [];
    for k := 0 to |chart|
      invariant |trendData| == k
      invariant forall i :: 0 <= i < k ==> trendData[i] == ChartPoint(TrendTag, chart[i].dateInterval, average)
    {
      var chartPoint := chart[k];
      trendData := trendData + [ChartPoint(TrendTag, chartPoint.dateInterval, average)];
    }
  }

  /** `combineTrend(chart:trend:)`: the chart, then the trend. */
  function CombineTrend(chart: seq<ChartPoint>, trend: seq<ChartPoint>): (combined: seq<ChartPoint>)
    ensures |combined| == |chart| + |trend|
    ensures combined[..|chart|] == chart && combined[|chart|..] == trend
  {
    chart + trend
  }

  /** The points of a series carrying `tag`, in order: what a chart keyed by tag draws as one line. */
  function Tagged(points: seq<ChartPoint>, tag: string): seq<ChartPoint>
    decreases |points|
  {
    if points == [] then []
    else (if points[0].tag == tag then [points[0]] else []) + Tagged(points[1..], tag)
  }

  lemma {:induction false} TaggedDistributes(a: seq<ChartPoint>, b: seq<ChartPoint>, tag: string)
    ensures Tagged(a + b, tag) == Tagged(a, tag) + Tagged(b, tag)
    decreases |a|
  {
    if a == [] {
      assert a + b == b;
    } else {
      var head := if a[0].tag == tag then [a[0]] else [];
      assert (a + b)[0] == a[0];
      assert (a + b)[1..] == a[1..] + b;
      assert Tagged(a + b, tag) == head + Tagged(a[1..] + b, tag);
      TaggedDistributes(a[1..], b, tag);
      assert Tagged(a, tag) == head + Tagged(a[1..], tag);
    }
  }

  lemma {:induction false} TaggedAll(points: seq<ChartPoint>, tag: string)
    requires forall k :: 0 <= k < |points| ==> points[k].tag == tag
    ensures Tagged(points, tag) == points
    decreases |points|
  {
    if points != [] {
      TaggedAll(points[1..], tag);
    }
  }

  lemma {:induction false} TaggedNone(points: seq<ChartPoint>, tag: string)
    requires forall k :: 0 <= k < |points| ==> points[k].tag != tag
    ensures Tagged(points, tag) == []
    decreases |points|
  {
    if points != [] {
      TaggedNone(points[1..], tag);
    }
  }

  /**
   * When no chart point is tagged "trend" and every trend point is, the
   * combined series still separates into the two: its "trend" points are
   * exactly the trend, and the points of any other tag are the chart's.
   */
  lemma CombinedTrendSeparates(chart: seq<ChartPoint>, trend: seq<ChartPoint>, tag: string)
    requires forall k :: 0 <= k < |chart| ==> chart[k].tag != TrendTag
    requires forall k :: 0 <= k < |trend| ==> trend[k].tag == TrendTag
    ensures Tagged(CombineTrend(chart, trend), TrendTag) == trend
    ensures tag != TrendTag ==> Tagged(CombineTrend(chart, trend), tag) == Tagged(chart, tag)
  {
    TaggedDistributes(chart, trend, TrendTag);
    TaggedNone(chart, TrendTag);
    TaggedAll(trend, TrendTag);
    TaggedDistributes(chart, trend, tag);
    if tag != TrendTag {
      TaggedNone(trend, tag);
    }
  }

}
