/**
 * The statistics query record that `buildMetricQuery` creates and `printMetric`
 * hands to the monitoring API, and the stamping of the run's time window on it.
 */
module Query {

  datatype Option<T> = None | Some(value: T)

  /** One `{Name, Value}` entry of a query's `Dimensions` list. */
  datatype Dimension = Dimension(name: string, value: string)

  /**
   * A query record. `statistics` is the `Statistics` list (one element when the
   * query comes from `buildMetricQuery`, any length for an ad hoc query read from
   * the configuration); `startTime` and `endTime` are absent until `printMetric`
   * stamps them.
   */
  datatype MetricQuery = MetricQuery(
    namespace: string,
    metricName: string,
    unit: string,
    statistics: seq<string>,
    dimensions: seq<Dimension>,
    period: int,
    startTime: Option<string>,
    endTime: Option<string>)

  /** The run's fixed time window, as the two ISO-8601 strings computed at start-up. */
  datatype TimeWindow = TimeWindow(start: string, end: string)

  const DEFAULT_PERIOD := 60

  /**
   * `period || 60`: an absent period, or the falsy period 0, becomes the default;
   * any other period is kept.
   */
  function PeriodOrDefault(period: Option<int>): (p: int)
    ensures (period.None? || period.value == 0) ==> p == DEFAULT_PERIOD
    ensures period.Some? && period.value != 0 ==> p == period.value
    ensures p != 0
  {
    match period
    case Some(v) => if v != 0 then v else DEFAULT_PERIOD
    case None => DEFAULT_PERIOD
  }

  /**
   * `buildMetricQuery(namespace, name, unit, statistics, dimensions, period)`:
   * the inputs copied unchanged, the statistic wrapped in a one-element list, the
   * period defaulted, and no time window yet.
   */
  function BuildMetricQuery(namespace: string, name: string, unit: string, statistic: string,
                            dimensions: seq<Dimension>, period: Option<int>): (q: MetricQuery)
    ensures q.namespace == namespace && q.metricName == name && q.unit == unit
    ensures q.dimensions == dimensions
    ensures |q.statistics| == 1 && q.statistics[0] == statistic
    ensures q.period == PeriodOrDefault(period)
    ensures q.startTime.None? && q.endTime.None?
  {
    MetricQuery(namespace, name, unit, [statistic], dimensions, PeriodOrDefault(period), None, None)
  }

  /**
   * What `printMetric` does to the query it is given before sending it: it sets
   * `StartTime` and `EndTime` to the run's window and leaves every other field as
   * it was.
   */
  function Stamp(q: MetricQuery, w: TimeWindow): (r: MetricQuery)
    ensures r.startTime == Some(w.start) && r.endTime == Some(w.end)
    ensures r.(startTime := q.startTime, endTime := q.endTime) == q
  {
    q.(startTime := Some(w.start), endTime := Some(w.end))
  }

  /** Every query of a list, stamped with the same window, in the same order. */
  function StampAll(qs: seq<MetricQuery>, w: TimeWindow): (r: seq<MetricQuery>)
    ensures |r| == |qs|
    ensures forall k :: 0 <= k < |qs| ==> r[k] == Stamp(qs[k], w)
  {
    seq(|qs|, k requires 0 <= k < |qs| => Stamp(qs[k], w))
  }

  lemma StampAllAppend(a: seq<MetricQuery>, b: seq<MetricQuery>, w: TimeWindow)
    ensures StampAll(a + b, w) == StampAll(a, w) + StampAll(b, w)
  {
    assert forall k :: 0 <= k < |a + b| ==> StampAll(a + b, w)[k] == (StampAll(a, w) + StampAll(b, w))[k];
  }
}
