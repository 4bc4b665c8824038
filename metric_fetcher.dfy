/**
 * What `get_metrics` (app.py) does with the metrics backend's answer once
 * the HTTP request has returned: map the status to an error, and reduce the
 * JSON array of series objects to their value columns.
 */
module MetricFetcher {
  import opened Wrappers
  import opened Values
  import opened Validation

  const METRIC_NOT_FOUND := "metric not found"
  const BAD_CREDENTIALS := "bad username/password"

  /** One `[value, timestamp]` pair of a series object's `datapoints`. */
  datatype Datapoint = Datapoint(value: Sample, timestamp: int)

  /** One object of the backend's JSON array; only `datapoints` is read. */
  datatype SeriesObject = SeriesObject(datapoints: seq<Datapoint>)

  /** The status code and the parsed JSON array of the backend's answer. */
  datatype Response = Response(status: int, body: seq<SeriesObject>)

  /** One series for one match, one series per match for several. */
  datatype Fetched = Single(series: Series) | Multi(members: seq<Series>)

  /** The statuses for which `raise_for_status` raises (client and server errors). */
  predicate IsErrorStatus(status: int)
  {
    400 <= status < 600
  }

  /** `[x[0] for x in datapoints]` */
  function ValueColumn(points: seq<Datapoint>): Series
  {
    seq(|points|, k requires 0 <= k < |points| => points[k].value)
  }

  /** The part of `get_metrics` after the request returns. */
  function ShapeResponse(resp: Response): (r: Result<Fetched, Error>)
    ensures resp.status == 404 ==> r == Failure(RuntimeError(METRIC_NOT_FOUND))
    ensures resp.status == 401 ==> r == Failure(RuntimeError(BAD_CREDENTIALS))
    ensures IsErrorStatus(resp.status) && resp.status != 404 && resp.status != 401 ==>
              r == Failure(HTTPError(resp.status))
    ensures !IsErrorStatus(resp.status) && resp.body == [] ==> r == Failure(RuntimeError(METRIC_NOT_FOUND))
    ensures r.Success? <==> !IsErrorStatus(resp.status) && resp.body != []
    ensures r.Success? && |resp.body| == 1 ==>
              r.value.Single? &&
              |r.value.series| == |resp.body[0].datapoints| &&
              forall k :: 0 <= k < |r.value.series| ==> r.value.series[k] == resp.body[0].datapoints[k].value
    ensures r.Success? && |resp.body| > 1 ==>
              r.value.Multi? && |r.value.members| == |resp.body| &&
              forall j :: 0 <= j < |resp.body| ==>
                |r.value.members[j]| == |resp.body[j].datapoints| &&
                forall k :: 0 <= k < |resp.body[j].datapoints| ==>
                  r.value.members[j][k] == resp.body[j].datapoints[k].value
  {
    if resp.status == 404 then
      Failure(RuntimeError(METRIC_NOT_FOUND))
    else if resp.status == 401 then
      Failure(RuntimeError(BAD_CREDENTIALS))
    else if IsErrorStatus(resp.status) then
      Failure(HTTPError(resp.status))
    else if |resp.body| == 0 then
      Failure(RuntimeError(METRIC_NOT_FOUND))
    else if |resp.body| == 1 then
      Success(Single(ValueColumn(resp.body[0].datapoints)))
    else
      Success(Multi(seq(|resp.body|, j requires 0 <= j < |resp.body| => ValueColumn(resp.body[j].datapoints))))
  }

  /** The two bodies carry the same values in the same places; timestamps may differ. */
  predicate SameValues(a: seq<SeriesObject>, b: seq<SeriesObject>)
  {
    |a| == |b| &&
    forall j :: 0 <= j < |a| ==>
      |a[j].datapoints| == |b[j].datapoints| &&
      forall k :: 0 <= k < |a[j].datapoints| ==> a[j].datapoints[k].value == b[j].datapoints[k].value
  }

  /** Timestamps are dropped: answers that differ only in them shape alike. */
  lemma ShapeIgnoresTimestamps(status: int, a: seq<SeriesObject>, b: seq<SeriesObject>)
    requires SameValues(a, b)
    ensures ShapeResponse(Response(status, a)) == ShapeResponse(Response(status, b))
  {
    var ra, rb := ShapeResponse(Response(status, a)), ShapeResponse(Response(status, b));
    if ra.Success? {
      if |a| == 1 {
        assert ra.value.series == rb.value.series;
      } else {
        forall j | 0 <= j < |a| ensures ra.value.members[j] == rb.value.members[j] {
          assert |ra.value.members[j]| == |rb.value.members[j]|;
        }
        assert ra.value.members == rb.value.members;
      }
    }
  }

  /**
   * The shaped answer feeds the series library: a single series is always a
   * valid time series, and several series pass the multi-series gate exactly
   * when the backend gave them equal lengths.
   */
  lemma FetchedFeedsSeriesOps(resp: Response)
    requires ShapeResponse(resp).Success?
    ensures var f := ShapeResponse(resp).value;
      (f.Single? ==> AssertTimeSeries(SeriesValue(f.series)) == Success(f.series)) &&
      (f.Multi? ==> (AssertMultiSeries(MultiValue(f.members)) == Success(f.members) <==>
                     forall j :: 0 <= j < |resp.body| ==> |resp.body[j].datapoints| == |resp.body[0].datapoints|))
  {
    var f := ShapeResponse(resp).value;
    if f.Single? {
      TimeSeriesRoundTrip(f.series);
    } else {
      MultiSeriesRoundTrip(f.members);
    }
  }
}
