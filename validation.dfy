/**
 * The two validation gates of the series library (app.py, assert_time_series
 * and assert_multi_series). Each is modelled as a parser: it either raises
 * the source's error or yields the typed series it has checked.
 */
module Validation {
  import opened Wrappers
  import opened Values

  const EXPECTING_TIME_SERIES := "expecting time series"
  const EXPECTING_MULTI_SERIES := "expecting multi series"
  const DIFFERING_LENGTHS := "series are differing lengths"
  /** Python's message for `xs[0]` on an empty list. */
  const INDEX_OUT_OF_RANGE := "list index out of range"

  /** `item is None or isinstance(item, numbers.Number)` */
  predicate IsSample(v: Value)
  {
    v.Num? || v.Null?
  }

  /** A list whose every item is a number or `None`. */
  predicate IsTimeSeries(v: Value)
  {
    v.List? && forall i :: 0 <= i < |v.items| ==> IsSample(v.items[i])
  }

  function ToSample(v: Value): Sample
    requires IsSample(v)
  {
    if v.Num? then Some(v.x) else None
  }

  /** A non-empty list of series whose members all have the length of the first. */
  predicate Rectangular(ss: seq<Series>)
  {
    |ss| > 0 && forall j :: 0 <= j < |ss| ==> |ss[j]| == |ss[0]|
  }

  /** `assert_time_series`: a list of numbers and `None`s, or SyntaxError. */
  function AssertTimeSeries(v: Value): (r: Result<Series, Error>)
    ensures r.Success? <==> IsTimeSeries(v)
    ensures r.Failure? ==> r.error == SyntaxError(EXPECTING_TIME_SERIES)
    ensures r.Success? ==> |r.value| == |v.items|
    ensures r.Success? ==> forall i :: 0 <= i < |r.value| ==>
              (r.value[i].None? <==> v.items[i].Null?) &&
              (r.value[i].Some? ==> v.items[i] == Num(r.value[i].value))
  {
    if IsTimeSeries(v) then
      Success(seq(|v.items|, i requires 0 <= i < |v.items| => ToSample(v.items[i])))
    else
      Failure(SyntaxError(EXPECTING_TIME_SERIES))
  }

  /**
   * `assert_multi_series`: checks in the source's order that the input is a
   * list, that every member is a time series, that there is a first member
   * (`series[0]`), and that every later member has its length.
   */
  function AssertMultiSeries(v: Value): (r: Result<seq<Series>, Error>)
    ensures !v.List? ==> r == Failure(SyntaxError(EXPECTING_MULTI_SERIES))
    ensures v.List? && (exists j :: 0 <= j < |v.items| && !IsTimeSeries(v.items[j])) ==>
              r == Failure(SyntaxError(EXPECTING_MULTI_SERIES))
    ensures v == List([]) ==> r == Failure(IndexError(INDEX_OUT_OF_RANGE))
    ensures r.Failure? && r.error != SyntaxError(EXPECTING_MULTI_SERIES) && r.error != IndexError(INDEX_OUT_OF_RANGE) ==>
              r.error == SyntaxError(DIFFERING_LENGTHS) &&
              exists j :: 1 <= j < |v.items| && |v.items[j].items| != |v.items[0].items|
    ensures r.Success? ==> v.List? && Rectangular(r.value) && |r.value| == |v.items|
    ensures r.Success? ==> forall j :: 0 <= j < |r.value| ==> AssertTimeSeries(v.items[j]) == Success(r.value[j])
  {
    if !v.List? then
      Failure(SyntaxError(EXPECTING_MULTI_SERIES))
    else if exists j :: 0 <= j < |v.items| && !IsTimeSeries(v.items[j]) then
      Failure(SyntaxError(EXPECTING_MULTI_SERIES))
    else if |v.items| == 0 then
      Failure(IndexError(INDEX_OUT_OF_RANGE))
    else if exists j :: 1 <= j < |v.items| && |v.items[j].items| != |v.items[0].items| then
      Failure(SyntaxError(DIFFERING_LENGTHS))
    else
      Success(seq(|v.items|, j requires 0 <= j < |v.items| => AssertTimeSeries(v.items[j]).value))
  }

  /** Validating the list form of a series gives back that series. */
  lemma TimeSeriesRoundTrip(s: Series)
    ensures AssertTimeSeries(SeriesValue(s)) == Success(s)
  {
    var v := SeriesValue(s);
    forall i | 0 <= i < |s| ensures IsSample(v.items[i]) && ToSample(v.items[i]) == s[i] {
      assert v.items[i] == if s[i].Some? then Num(s[i].value) else Null;
    }
    var r := AssertTimeSeries(v).value;
    assert |r| == |s|;
    assert r == s;
  }

  /** A value that passes validation is exactly the list form of what it yields. */
  lemma TimeSeriesValueRoundTrip(v: Value)
    requires IsTimeSeries(v)
    ensures SeriesValue(AssertTimeSeries(v).value) == v
  {
  }

  /**
   * A list of series passes the multi-series gate exactly when it is
   * rectangular; otherwise it fails at `series[0]` (empty) or on the
   * length check.
   */
  lemma MultiSeriesRoundTrip(ss: seq<Series>)
    ensures AssertMultiSeries(MultiValue(ss)) ==
              if Rectangular(ss) then Success(ss)
              else if ss == [] then Failure(IndexError(INDEX_OUT_OF_RANGE))
              else Failure(SyntaxError(DIFFERING_LENGTHS))
  {
    var v := MultiValue(ss);
    forall j | 0 <= j < |ss| ensures IsTimeSeries(v.items[j]) && AssertTimeSeries(v.items[j]) == Success(ss[j]) {
      assert v.items[j] == SeriesValue(ss[j]);
      TimeSeriesRoundTrip(ss[j]);
    }
    if Rectangular(ss) {
      var r := AssertMultiSeries(v);
      assert r.Success?;
      assert |r.value| == |ss|;
      forall j | 0 <= j < |ss| ensures r.value[j] == ss[j] {
        assert AssertTimeSeries(v.items[j]) == Success(r.value[j]);
      }
      assert r.value == ss;
    } else if ss != [] {
      var j :| 0 <= j < |ss| && |ss[j]| != |ss[0]|;
      assert |v.items[j].items| == |ss[j]|;
      assert |v.items[0].items| == |ss[0]|;
    }
  }
}
