/**
 * The accumulations the reducers perform, as functions: the null-as-zero
 * total of `single_sum`, and the left fold with an optional accumulator
 * shared by `single_max`, `single_min` and the pointwise multi-series
 * reducers, together with what each fold computes.
 */
module Folds {
  import opened Wrappers
  import opened Values

  /** The three combining rules of the reducers. */
  datatype Op = Add | Greater | Less

  /**
   * One step of a fold: an absent sample never changes the accumulator, an
   * absent accumulator is replaced by the first present sample, and
   * otherwise the op combines them (sum, or keep the strictly greater or
   * strictly smaller of the two).
   */
  function Step(op: Op, acc: Sample, x: Sample): Sample
  {
    if x.None? then acc
    else if acc.None? then x
    else match op
      case Add => Some(acc.value + x.value)
      case Greater => if x.value > acc.value then x else acc
      case Less => if x.value < acc.value then x else acc
  }

  /** Left fold of `Step` over `s`, starting from `acc`. */
  function Fold(op: Op, acc: Sample, s: Series): Sample
    decreases |s|
  {
    if s == [] then acc else Fold(op, Step(op, acc, s[0]), s[1..])
  }

  /** The fold that starts from the first sample, as the reducers do (`series[0]`). */
  function Reduce(op: Op, s: Series): Sample
    requires |s| > 0
  {
    Fold(op, s[0], s[1..])
  }

  predicate AllNull(s: Series)
  {
    forall i :: 0 <= i < |s| ==> s[i].None?
  }

  /** The value a sample contributes to `single_sum`. */
  function Val(x: Sample): real
  {
    if x.Some? then x.value else 0.0
  }

  /** Sum with absent samples counting as 0. */
  function Total(s: Series): real
  {
    if s == [] then 0.0 else Val(s[0]) + Total(s[1..])
  }

  /** The present samples, in order (an independent view of a series). */
  function Present(s: Series): seq<real>
  {
    if s == [] then []
    else if s[0].Some? then [s[0].value] + Present(s[1..])
    else Present(s[1..])
  }

  function SumOf(xs: seq<real>): real
  {
    if xs == [] then 0.0 else xs[0] + SumOf(xs[1..])
  }

  /** `m` is the greatest present sample of `s`, or None when there is none. */
  ghost predicate IsMaxOf(m: Sample, s: Series)
  {
    (m.None? <==> AllNull(s)) &&
    (m.Some? ==> m in s && forall i :: 0 <= i < |s| && s[i].Some? ==> s[i].value <= m.value)
  }

  /** `m` is the smallest present sample of `s`, or None when there is none. */
  ghost predicate IsMinOf(m: Sample, s: Series)
  {
    (m.None? <==> AllNull(s)) &&
    (m.Some? ==> m in s && forall i :: 0 <= i < |s| && s[i].Some? ==> m.value <= s[i].value)
  }

  /** The total is the sum of the present samples. */
  lemma {:induction false} TotalIsSumOfPresent(s: Series)
    ensures Total(s) == SumOf(Present(s))
  {
    if s != [] {
      TotalIsSumOfPresent(s[1..]);
      if s[0].Some? {
        assert Present(s) == [s[0].value] + Present(s[1..]);
        assert ([s[0].value] + Present(s[1..]))[1..] == Present(s[1..]);
      }
    }
  }

  /** An all-null (or empty) series totals 0. */
  lemma {:induction false} TotalOfAllNull(s: Series)
    requires AllNull(s)
    ensures Total(s) == 0.0
  {
    if s != [] {
      assert AllNull(s[1..]) by {
        forall i | 0 <= i < |s[1..]| ensures s[1..][i].None? { assert s[1..][i] == s[i + 1]; }
      }
      TotalOfAllNull(s[1..]);
    }
  }

  /** A fold ends with None exactly when it started with None and met only gaps. */
  lemma {:induction false} FoldIsNone(op: Op, acc: Sample, s: Series)
    ensures Fold(op, acc, s).None? <==> acc.None? && AllNull(s)
    decreases |s|
  {
    if s != [] {
      FoldIsNone(op, Step(op, acc, s[0]), s[1..]);
      assert AllNull(s) <==> s[0].None? && AllNull(s[1..]) by {
        if s[0].None? && AllNull(s[1..]) {
          forall i | 0 <= i < |s| ensures s[i].None? {
            if i > 0 { assert s[i] == s[1..][i - 1]; }
          }
        }
      }
    }
  }

  /** Summing fold: the accumulator plus the total of the samples. */
  lemma {:induction false} FoldAddIsTotal(acc: Sample, s: Series)
    ensures Fold(Add, acc, s).Some? ==> Fold(Add, acc, s).value == Val(acc) + Total(s)
    decreases |s|
  {
    if s != [] {
      FoldAddIsTotal(Step(Add, acc, s[0]), s[1..]);
    }
  }

  /** Greater fold: a sample met (or the start) that is at least every present one. */
  lemma {:induction false} FoldGreaterIsMax(acc: Sample, s: Series)
    ensures var m := Fold(Greater, acc, s);
      m.Some? ==> (m == acc || m in s) &&
                  (acc.Some? ==> acc.value <= m.value) &&
                  forall i :: 0 <= i < |s| && s[i].Some? ==> s[i].value <= m.value
    decreases |s|
  {
    if s != [] {
      var next := Step(Greater, acc, s[0]);
      FoldGreaterIsMax(next, s[1..]);
      var m := Fold(Greater, acc, s);
      if m.Some? {
        forall i | 0 <= i < |s| && s[i].Some? ensures s[i].value <= m.value {
          if i > 0 { assert s[i] == s[1..][i - 1]; }
        }
        if m != next { assert m in s[1..]; }
      }
    }
  }

  /** Less fold: a sample met (or the start) that is at most every present one. */
  lemma {:induction false} FoldLessIsMin(acc: Sample, s: Series)
    ensures var m := Fold(Less, acc, s);
      m.Some? ==> (m == acc || m in s) &&
                  (acc.Some? ==> m.value <= acc.value) &&
                  forall i :: 0 <= i < |s| && s[i].Some? ==> m.value <= s[i].value
    decreases |s|
  {
    if s != [] {
      var next := Step(Less, acc, s[0]);
      FoldLessIsMin(next, s[1..]);
      var m := Fold(Less, acc, s);
      if m.Some? {
        forall i | 0 <= i < |s| && s[i].Some? ensures m.value <= s[i].value {
          if i > 0 { assert s[i] == s[1..][i - 1]; }
        }
        if m != next { assert m in s[1..]; }
      }
    }
  }

  /** Reducing by Add: None for an all-null series, else the null-as-zero total. */
  lemma ReduceAddIsTotal(s: Series)
    requires |s| > 0
    ensures Reduce(Add, s) == if AllNull(s) then None else Some(Total(s))
  {
    FoldIsNone(Add, s[0], s[1..]);
    FoldAddIsTotal(s[0], s[1..]);
    assert AllNull(s) <==> s[0].None? && AllNull(s[1..]) by {
      if s[0].None? && AllNull(s[1..]) {
        forall i | 0 <= i < |s| ensures s[i].None? {
          if i > 0 { assert s[i] == s[1..][i - 1]; }
        }
      }
    }
  }

  /** Reducing by Greater yields the maximum. */
  lemma ReduceGreaterIsMax(s: Series)
    requires |s| > 0
    ensures IsMaxOf(Reduce(Greater, s), s)
  {
    var m := Reduce(Greater, s);
    FoldIsNone(Greater, s[0], s[1..]);
    FoldGreaterIsMax(s[0], s[1..]);
    assert s == [s[0]] + s[1..];
    if m.Some? {
      forall i | 0 <= i < |s| && s[i].Some? ensures s[i].value <= m.value {
        if i > 0 { assert s[i] == s[1..][i - 1]; }
      }
    }
    assert AllNull(s) <==> s[0].None? && AllNull(s[1..]) by {
      if s[0].None? && AllNull(s[1..]) {
        forall i | 0 <= i < |s| ensures s[i].None? {
          if i > 0 { assert s[i] == s[1..][i - 1]; }
        }
      }
    }
  }

  /** Reducing by Less yields the minimum. */
  lemma ReduceLessIsMin(s: Series)
    requires |s| > 0
    ensures IsMinOf(Reduce(Less, s), s)
  {
    var m := Reduce(Less, s);
    FoldIsNone(Less, s[0], s[1..]);
    FoldLessIsMin(s[0], s[1..]);
    assert s == [s[0]] + s[1..];
    if m.Some? {
      forall i | 0 <= i < |s| && s[i].Some? ensures m.value <= s[i].value {
        if i > 0 { assert s[i] == s[1..][i - 1]; }
      }
    }
    assert AllNull(s) <==> s[0].None? && AllNull(s[1..]) by {
      if s[0].None? && AllNull(s[1..]) {
        forall i | 0 <= i < |s| ensures s[i].None? {
          if i > 0 { assert s[i] == s[1..][i - 1]; }
        }
      }
    }
  }
}
