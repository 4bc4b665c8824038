/**
 * The built-in series functions of the check language (app.py,
 * single_sum ... ewma). The looping reducers are methods proved against the
 * folds of module Folds; `last` and `ewma` are functions, as in the source.
 */
module SeriesOps {
  import opened Wrappers
  import opened Values
  import opened Validation
  import opened Folds

  const NO_SERIES := "no series"
  /** The interpreter's text for calling `assert_time_series()` with no argument. */
  const MISSING_ARGUMENT := "assert_time_series() takes exactly 1 argument (0 given)"
  /** The interpreter's text for `start - next_element` when `start` is None. */
  const NONE_OPERAND := "unsupported operand type(s) for -"
  /** The default smoothing factor of `ewma`. */
  const DEFAULT_ALPHA: real := 0.4

  /** `sum`: the total of the present samples, gaps counting 0. */
  method SingleSum(v: Value) returns (r: Result<real, Error>)
    ensures !IsTimeSeries(v) ==> r == Failure(SyntaxError(EXPECTING_TIME_SERIES))
    ensures IsTimeSeries(v) ==> r == Success(SumOf(Present(AssertTimeSeries(v).value)))
  {
    var checked := AssertTimeSeries(v);
    if checked.Failure? {
      return Failure(checked.error);
    }
    var series := checked.value;
    var seriesSum := 0.0;
    var i := 0;
    while i < |series|
      invariant 0 <= i <= |series|
      invariant seriesSum + Total(series[i..]) == Total(series)
    {
      var item := series[i];
      if item.Some? {
        seriesSum := seriesSum + item.value;
      }
      assert series[i..][1..] == series[i + 1..];
      i := i + 1;
    }
    TotalIsSumOfPresent(series);
    r := Success(seriesSum);
  }

  /** `max`: the greatest present sample, None when every sample is a gap. */
  method SingleMax(v: Value) returns (r: Result<Sample, Error>)
    ensures !IsTimeSeries(v) ==> r == Failure(SyntaxError(EXPECTING_TIME_SERIES))
    ensures v == List([]) ==> r == Failure(IndexError(INDEX_OUT_OF_RANGE))
    ensures IsTimeSeries(v) && v.items != [] ==>
              r.Success? && IsMaxOf(r.value, AssertTimeSeries(v).value)
  {
    var checked := AssertTimeSeries(v);
    if checked.Failure? {
      return Failure(checked.error);
    }
    var series := checked.value;
    if |series| == 0 {
      return Failure(IndexError(INDEX_OUT_OF_RANGE));
    }
    var seriesMax := series[0];
    var i := 1;
    while i < |series|
      invariant 1 <= i <= |series|
      invariant Fold(Greater, seriesMax, series[i..]) == Reduce(Greater, series)
    {
      var item := series[i];
      if item.Some? && (seriesMax.None? || item.value > seriesMax.value) {
        seriesMax := item;
      }
      assert series[i..][1..] == series[i + 1..];
      i := i + 1;
    }
    ReduceGreaterIsMax(series);
    r := Success(seriesMax);
  }

  /**
   * `min` as the source writes it: it calls the validator without its
   * argument, so the call raises TypeError before anything else happens.
   */
  function SingleMinAsWritten(v: Value): (r: Result<Sample, Error>)
    ensures r.Failure? && r.error.TypeError?
  {
    Failure(TypeError(MISSING_ARGUMENT))
  }

  /**
   * `min` as written fails on every valid, non-empty series, where the
   * strictly-less fold it was meant to run yields the minimum.
   */
  lemma MinAsWrittenRejectsEverySeries(s: Series)
    requires |s| > 0
    ensures IsTimeSeries(SeriesValue(s)) && SeriesValue(s).items != []
    ensures SingleMinAsWritten(SeriesValue(s)).Failure?
    ensures IsMinOf(Reduce(Less, s), s)
  {
    TimeSeriesRoundTrip(s);
    ReduceLessIsMin(s);
  }

  /**
   * `min`, with its validator applied to the series as `max` does: the
   * smallest present sample, None when every sample is a gap.
   */
  method SingleMin(v: Value) returns (r: Result<Sample, Error>)
    ensures !IsTimeSeries(v) ==> r == Failure(SyntaxError(EXPECTING_TIME_SERIES))
    ensures v == List([]) ==> r == Failure(IndexError(INDEX_OUT_OF_RANGE))
    ensures IsTimeSeries(v) && v.items != [] ==>
              r.Success? && IsMinOf(r.value, AssertTimeSeries(v).value)
  {
    var checked := AssertTimeSeries(v);
    if checked.Failure? {
      return Failure(checked.error);
    }
    var series := checked.value;
    if |series| == 0 {
      return Failure(IndexError(INDEX_OUT_OF_RANGE));
    }
    var seriesMin := series[0];
    var i := 1;
    while i < |series|
      invariant 1 <= i <= |series|
      invariant Fold(Less, seriesMin, series[i..]) == Reduce(Less, series)
    {
      var item := series[i];
      if item.Some? && (seriesMin.None? || item.value < seriesMin.value) {
        seriesMin := item;
      }
      assert series[i..][1..] == series[i + 1..];
      i := i + 1;
    }
    ReduceLessIsMin(series);
    r := Success(seriesMin);
  }

  /** The samples at index `i` of every member, in member order. */
  function Column(ss: seq<Series>, i: nat): (c: Series)
    requires Rectangular(ss) && i < |ss[0]|
    ensures |c| == |ss| && forall j :: 0 <= j < |ss| ==> c[j] == ss[j][i]
  {
    seq(|ss|, j requires 0 <= j < |ss| => ss[j][i])
  }

  /**
   * The nested loop shared by `multi_sum`, `multi_max` and `multi_min`: for
   * each index of the first member, fold the later members' samples at that
   * index into the first member's sample, and append the result.
   */
  method PointwiseReduce(op: Op, ss: seq<Series>) returns (newSeries: Series)
    requires Rectangular(ss)
    ensures |newSeries| == |ss[0]|
    ensures forall i :: 0 <= i < |newSeries| ==> newSeries[i] == Reduce(op, Column(ss, i))
  {
    newSeries := [];
    var index := 0;
    while index < |ss[0]|
      invariant 0 <= index <= |ss[0]|
      invariant |newSeries| == index
      invariant forall i :: 0 <= i < index ==> newSeries[i] == Reduce(op, Column(ss, i))
    {
      var column := Column(ss, index);
      var start := ss[0][index];
      var j := 1;
      while j < |ss|
        invariant 1 <= j <= |ss|
        invariant Fold(op, start, column[j..]) == Reduce(op, column)
      {
        start := Step(op, start, ss[j][index]);
        assert column[j..][1..] == column[j + 1..];
        j := j + 1;
      }
      newSeries := newSeries + [start];
      index := index + 1;
    }
  }

  /** `multi_sum([[1, 2], [3, None]])` is `[4, 2]`: a gap adds nothing. */
  lemma MultiSumExample()
    ensures var ss := [[Some(1.0), Some(2.0)], [Some(3.0), None]];
      Rectangular(ss) &&
      Reduce(Add, Column(ss, 0)) == Some(4.0) && Reduce(Add, Column(ss, 1)) == Some(2.0)
  {
  }

  /**
   * `multi-sum`: index by index, None where every member has a gap, else the
   * null-as-zero total of the members' samples there.
   */
  method MultiSum(v: Value) returns (r: Result<Series, Error>)
    ensures AssertMultiSeries(v).Failure? ==> r == Failure(AssertMultiSeries(v).error)
    ensures AssertMultiSeries(v).Success? ==>
              var ss := AssertMultiSeries(v).value;
              r.Success? && |r.value| == |ss[0]| &&
              forall i :: 0 <= i < |r.value| ==>
                r.value[i] == if AllNull(Column(ss, i)) then None else Some(Total(Column(ss, i)))
  {
    var checked := AssertMultiSeries(v);
    if checked.Failure? {
      return Failure(checked.error);
    }
    var ss := checked.value;
    var newSeries := PointwiseReduce(Add, ss);
    forall i | 0 <= i < |newSeries|
      ensures newSeries[i] == if AllNull(Column(ss, i)) then None else Some(Total(Column(ss, i)))
    {
      ReduceAddIsTotal(Column(ss, i));
    }
    r := Success(newSeries);
  }

  /** `multi-max`: index by index, the maximum of the members' samples there. */
  method MultiMax(v: Value) returns (r: Result<Series, Error>)
    ensures AssertMultiSeries(v).Failure? ==> r == Failure(AssertMultiSeries(v).error)
    ensures AssertMultiSeries(v).Success? ==>
              var ss := AssertMultiSeries(v).value;
              r.Success? && |r.value| == |ss[0]| &&
              forall i :: 0 <= i < |r.value| ==> IsMaxOf(r.value[i], Column(ss, i))
  {
    var checked := AssertMultiSeries(v);
    if checked.Failure? {
      return Failure(checked.error);
    }
    var ss := checked.value;
    var newSeries := PointwiseReduce(Greater, ss);
    forall i | 0 <= i < |newSeries| ensures IsMaxOf(newSeries[i], Column(ss, i)) {
      ReduceGreaterIsMax(Column(ss, i));
    }
    r := Success(newSeries);
  }

  /** `multi-min`: index by index, the minimum of the members' samples there. */
  method MultiMin(v: Value) returns (r: Result<Series, Error>)
    ensures AssertMultiSeries(v).Failure? ==> r == Failure(AssertMultiSeries(v).error)
    ensures AssertMultiSeries(v).Success? ==>
              var ss := AssertMultiSeries(v).value;
              r.Success? && |r.value| == |ss[0]| &&
              forall i :: 0 <= i < |r.value| ==> IsMinOf(r.value[i], Column(ss, i))
  {
    var checked := AssertMultiSeries(v);
    if checked.Failure? {
      return Failure(checked.error);
    }
    var ss := checked.value;
    var newSeries := PointwiseReduce(Less, ss);
    forall i | 0 <= i < |newSeries| ensures IsMinOf(newSeries[i], Column(ss, i)) {
      ReduceLessIsMin(Column(ss, i));
    }
    r := Success(newSeries);
  }

  /** Python's `s[:-1]`: everything but the final sample; empty stays empty. */
  function DropFinal(s: Series): (r: Series)
    ensures |r| == if |s| == 0 then 0 else |s| - 1
    ensures r <= s
  {
    if |s| == 0 then [] else s[..|s| - 1]
  }

  /** `last`: the validated series without its final sample. */
  function Last(v: Value): (r: Result<Series, Error>)
    ensures !IsTimeSeries(v) ==> r == Failure(SyntaxError(EXPECTING_TIME_SERIES))
    ensures IsTimeSeries(v) ==> r.Success? && r.value == DropFinal(AssertTimeSeries(v).value)
  {
    match AssertTimeSeries(v)
    case Failure(e) => Failure(e)
    case Success(s) => Success(DropFinal(s))
  }

  /** Putting the dropped sample back restores the series. */
  lemma DropFinalRestores(s: Series)
    requires |s| > 0
    ensures DropFinal(s) + [s[|s| - 1]] == s
  {
  }

  /** One smoothing step of `ewma`: `x + alpha * (acc - x)`. */
  function Smooth(alpha: real, acc: real, x: real): real
  {
    x + alpha * (acc - x)
  }

  /**
   * The inner `do` of `ewma`: smooth towards each sample in turn with
   * `acc := x + alpha * (acc - x)`, stopping with the current accumulator at
   * the end or at the first gap; a gap in the accumulator meeting a sample
   * is Python's `None - x`.
   */
  function EwmaFrom(alpha: real, start: Sample, s: Series): (r: Result<Sample, Error>)
    ensures r.Failure? <==> start.None? && s != [] && s[0].Some?
    ensures r.Failure? ==> r.error == TypeError(NONE_OPERAND)
    ensures r.Success? && r.value.None? ==> start.None?
    decreases |s|
  {
    if s == [] then Success(start)
    else if s[0].None? then Success(start)
    else if start.None? then Failure(TypeError(NONE_OPERAND))
    else EwmaFrom(alpha, Some(Smooth(alpha, start.value, s[0].value)), s[1..])
  }

  /** `weighted-average` (`ewma`). */
  function Ewma(v: Value, alpha: real): (r: Result<Sample, Error>)
    ensures !Truthy(v) ==> r == Failure(RuntimeError(NO_SERIES))
    ensures Truthy(v) && !IsTimeSeries(v) ==> r == Failure(SyntaxError(EXPECTING_TIME_SERIES))
    ensures v.List? && |v.items| == 1 && IsSample(v.items[0]) ==> r == Success(ToSample(v.items[0]))
    ensures Truthy(v) && IsTimeSeries(v) && |v.items| > 1 ==>
              var s := AssertTimeSeries(v).value; r == EwmaFrom(alpha, s[0], s[1..])
  {
    if !Truthy(v) then
      Failure(RuntimeError(NO_SERIES))
    else
      match AssertTimeSeries(v)
      case Failure(e) => Failure(e)
      case Success(s) =>
        if |s| == 1 then Success(s[0]) else EwmaFrom(alpha, s[0], s[1..])
  }

  /** The `weighted-average` binding: `ewma` with its default `alpha`. */
  function WeightedAverage(v: Value): Result<Sample, Error>
  {
    Ewma(v, DEFAULT_ALPHA)
  }

  /**
   * With the default factor, `[10]` averages to 10 and `[10, 20]` to
   * `20 + 0.4 * (10 - 20)`, that is 16.
   */
  lemma WeightedAverageExamples()
    ensures WeightedAverage(List([Num(10.0)])) == Success(Some(10.0))
    ensures WeightedAverage(List([Num(10.0), Num(20.0)])) == Success(Some(16.0))
  {
    var v := List([Num(10.0), Num(20.0)]);
    assert AssertTimeSeries(v).value == [Some(10.0), Some(20.0)];
  }

  /** Everything after the first gap is ignored. */
  lemma {:induction false} EwmaStopsAtGap(alpha: real, start: Sample, prefix: Series, rest: Series)
    ensures EwmaFrom(alpha, start, prefix + [None] + rest) == EwmaFrom(alpha, start, prefix)
    decreases |prefix|
  {
    var s := prefix + [None] + rest;
    if prefix != [] {
      assert s[0] == prefix[0];
      assert s[1..] == prefix[1..] + [None] + rest;
      if prefix[0].Some? && start.Some? {
        var next := Some(Smooth(alpha, start.value, prefix[0].value));
        EwmaStopsAtGap(alpha, next, prefix[1..], rest);
        assert EwmaFrom(alpha, start, s) == EwmaFrom(alpha, next, s[1..]);
        assert EwmaFrom(alpha, start, prefix) == EwmaFrom(alpha, next, prefix[1..]);
      }
    } else {
      assert s[0] == None;
    }
  }

  /** One smoothing step stays between its two inputs' bounds. */
  lemma SmoothStepInRange(alpha: real, acc: real, x: real, lo: real, hi: real)
    requires 0.0 <= alpha <= 1.0
    requires lo <= acc <= hi && lo <= x <= hi
    ensures lo <= Smooth(alpha, acc, x) <= hi
  {
    assert x + alpha * (acc - x) == (1.0 - alpha) * x + alpha * acc;
    MulNonneg(1.0 - alpha, x - lo);
    MulNonneg(alpha, acc - lo);
    MulNonneg(1.0 - alpha, hi - x);
    MulNonneg(alpha, hi - acc);
  }

  lemma MulNonneg(a: real, b: real)
    requires a >= 0.0 && b >= 0.0
    ensures a * b >= 0.0
  {
  }

  /**
   * With 0 <= alpha <= 1, smoothing a start value and samples that lie in
   * [lo, hi] gives a value in [lo, hi].
   */
  lemma {:induction false} EwmaWithinRange(alpha: real, start: real, s: Series, lo: real, hi: real)
    requires 0.0 <= alpha <= 1.0
    requires lo <= start <= hi
    requires forall i :: 0 <= i < |s| && s[i].Some? ==> lo <= s[i].value <= hi
    ensures EwmaFrom(alpha, Some(start), s).Success?
    ensures EwmaFrom(alpha, Some(start), s).value.Some?
    ensures lo <= EwmaFrom(alpha, Some(start), s).value.value <= hi
    decreases |s|
  {
    if s != [] && s[0].Some? {
      var x := s[0].value;
      SmoothStepInRange(alpha, start, x, lo, hi);
      forall i | 0 <= i < |s[1..]| && s[1..][i].Some? ensures lo <= s[1..][i].value <= hi {
        assert s[1..][i] == s[i + 1];
      }
      EwmaWithinRange(alpha, Smooth(alpha, start, x), s[1..], lo, hi);
      assert EwmaFrom(alpha, Some(start), s) == EwmaFrom(alpha, Some(Smooth(alpha, start, x)), s[1..]);
    }
  }
}
