# graphite-nagios check core, modelled in Dafny

graphite-nagios is a Nagios check. It fetches time series from a Graphite
backend and reduces them with a small library of series functions. A
user-written check expression, run by an embedded Lisp interpreter, does the
reducing. The check compares the result with warning and critical thresholds
and exits with the Nagios status code.

This project models the logic of `graphite_nagios/app.py`:

- `Validation` — the gates `assert_time_series` and `assert_multi_series`.
  Each one either raises the source's error or yields the typed series it
  checked. Round-trip lemmas connect the typed series with their list form.
- `Folds` — what the reducers accumulate, as functions:
  - the null-as-zero total;
  - one left fold with an optional accumulator, shared by max, min and the
    pointwise multi-series reducers.
  Lemmas say what each fold computes: a sum, a maximum or a minimum.
- `SeriesOps` — the built-ins `sum`, `max`, `min`, `multi-sum`, `multi-max`,
  `multi-min`, `last` and `weighted-average` (`ewma`).
  - The looping reducers are methods whose loops are proved against `Folds`.
  - `last` and `ewma` are functions.
- `MetricFetcher` — what `get_metrics` does with the backend's answer: the
  status checks and the extraction of the value columns.
- `EvalEnvironment` — `create_env`. A class wraps the namespace dict that the
  source fills in place. There is also the comprehension that binds each
  option that has a value as `*name*`.
- `CheckRunner` — the end of `main`: the usage check, the evaluation outcome,
  the threshold decision, the printed line and the exit code.

Samples are `Option<real>`, where `None` is a gap. Values passed to the
built-ins are a small `Value` type: a number, `None`, a list, a string, or
another object, of which only its truthiness matters.

Points where the code's behaviour is easy to misread, and which the model keeps:

- `ewma` stops at the first gap after the first sample. It returns the
  accumulator it has so far and ignores every later sample. It does not skip
  the gap and carry on.
- If the first sample of `ewma` is `None` and the next sample is a number,
  `None - x` raises TypeError.
- `sum` of an empty series is 0 and `last` of an empty series is empty. Only
  `max`, `min`, the multi reducers (on an empty outer list) and `ewma`
  reject empty input.
- `main` reads `args`, a dict that holds only the parsed options whose value
  is not None. That is the flags given on the command line plus the
  defaults that are not None (`configfile`, and `repl`, which is False when
  absent). `warning`, `critical` and `method` have no default. So:
  - a missing `--warning` makes `args['warning']` raise a KeyError that
    nothing catches;
  - the usage error is printed only when warning and critical are both 0 and
    the method is the empty string, because the test is on falsiness;
  - a missing `--method` after that gives a KeyError inside the `try`, so
    the check reports UNKNOWN;
  - a missing `--critical` after a successful evaluation is an uncaught
    KeyError.
  Uncaught exceptions are modelled as `Crashed`. The interpreter exits with
  status 1 in that case.
- Only statuses 400 to 599 (other than 404 and 401) make `raise_for_status`
  fail. This is the convention of the requests library.
- `min` validates its argument here, as `max` does. See "## Findings".

## Model

| member | source | states |
|---|---|---|
| `Validation.AssertTimeSeries` | graphite_nagios/app.py:18-24 | Succeeds exactly for a list of numbers and Nones. Otherwise raises SyntaxError('expecting time series'). On success it yields the items one for one, with None as a gap. |
| `Validation.AssertMultiSeries` | graphite_nagios/app.py:27-40 | A non-list, or a member that is not a time series, gives SyntaxError('expecting multi series'). An empty list gives IndexError at `series[0]`. A later member of another length gives 'series are differing lengths'. On success the result is rectangular and each member is that member validated. |
| `Validation.TimeSeriesRoundTrip` | graphite_nagios/app.py:18-24 | Validating the list form of any series gives back that series. |
| `Validation.TimeSeriesValueRoundTrip` | graphite_nagios/app.py:18-24 | A value that passes validation is exactly the list form of what it yields. |
| `Validation.MultiSeriesRoundTrip` | graphite_nagios/app.py:27-40 | A list of series passes exactly when it is non-empty and all members share the first member's length. Otherwise it fails with IndexError (empty) or the length error. |
| `Folds.Step` | graphite_nagios/app.py:56-111 | definition: one step of every reducer. A gap leaves the accumulator; a None accumulator takes the sample; otherwise add, or keep the strictly greater or strictly less of the two. |
| `Folds.Fold` | graphite_nagios/app.py:56-111 | definition: the reducers' `for` loop over the remaining samples, applying `Step` from a given start. |
| `Folds.Reduce` | graphite_nagios/app.py:56-111 | definition: the fold that starts from `series[0]` and runs over the rest. |
| `Folds.TotalIsSumOfPresent` | graphite_nagios/app.py:46-49 | The null-as-zero total equals the sum of the present samples. |
| `Folds.TotalOfAllNull` | graphite_nagios/app.py:46-49 | An all-null or empty series totals 0. |
| `Folds.FoldIsNone` | graphite_nagios/app.py:56-59 | A fold ends with None exactly when it started with None and met only gaps. |
| `Folds.FoldAddIsTotal` | graphite_nagios/app.py:77-84 | The summing fold ends with the starting value plus the total of the samples. |
| `Folds.FoldGreaterIsMax` | graphite_nagios/app.py:56-59 | The greater fold ends with the start or one of the samples. That value is at least the start and every present sample. |
| `Folds.FoldLessIsMin` | graphite_nagios/app.py:66-69 | The less fold ends with the start or one of the samples. That value is at most the start and every present sample. |
| `Folds.ReduceAddIsTotal` | graphite_nagios/app.py:77-84 | Summing from `series[0]` gives None for an all-null series, and otherwise the null-as-zero total. |
| `Folds.ReduceGreaterIsMax` | graphite_nagios/app.py:54-61 | Folding from `series[0]` with the strictly-greater rule gives the maximum. It is None iff all samples are gaps, and otherwise a sample that is at least every present sample. |
| `Folds.ReduceLessIsMin` | graphite_nagios/app.py:64-71 | Folding from `series[0]` with the strictly-less rule gives the minimum, with the same None rule. |
| `SeriesOps.SingleSum` | graphite_nagios/app.py:44-51 | A non-series raises SyntaxError. Otherwise the result is the sum of the present samples, so 0 for an empty or all-null series. |
| `SeriesOps.SingleMax` | graphite_nagios/app.py:54-61 | A non-series raises SyntaxError and an empty list raises IndexError. Otherwise the result is the maximum of the present samples, and None iff every sample is a gap. |
| `SeriesOps.MinAsWrittenRejectsEverySeries` | graphite_nagios/app.py:64-65 | `min` as written fails even on a valid, non-empty series, on which the strictly-less fold from `series[0]` yields the minimum. |
| `SeriesOps.SingleMin` | graphite_nagios/app.py:64-71 | Corrected `min`: the same error cases as `max`, and otherwise the minimum of the present samples, None iff every sample is a gap. |
| `SeriesOps.Column` | graphite_nagios/app.py:78-79 | The samples at one index, one per member, in member order. |
| `SeriesOps.PointwiseReduce` | graphite_nagios/app.py:74-111 | The output has the first member's length. Entry i is the left fold of the members' samples at i, starting from `series[0][i]`. |
| `SeriesOps.MultiSumExample` | graphite_nagios/app.py:74-86 | `multi_sum([[1,2],[3,None]])` is `[4,2]`. |
| `SeriesOps.MultiSum` | graphite_nagios/app.py:74-86 | The validator's errors propagate. Otherwise each entry is None where every member has a gap, else the null-as-zero total across members. The length is the first member's length. |
| `SeriesOps.MultiMax` | graphite_nagios/app.py:89-98 | The validator's errors propagate. Otherwise each entry is the maximum of the members' samples at that index. The length is the first member's length. |
| `SeriesOps.MultiMin` | graphite_nagios/app.py:102-111 | The validator's errors propagate. Otherwise each entry is the minimum of the members' samples at that index. The length is the first member's length. |
| `SeriesOps.SingleMinAsWritten` | graphite_nagios/app.py:64-65 | `min` as written: every call raises TypeError, because the validator is called without its argument. |
| `SeriesOps.DropFinal` | graphite_nagios/app.py:117 | The result is a prefix of the series. Its length is one less, or 0 for an empty series. |
| `SeriesOps.Last` | graphite_nagios/app.py:115-117 | A non-series raises SyntaxError. Otherwise the result is the validated series without its final sample. |
| `SeriesOps.DropFinalRestores` | graphite_nagios/app.py:117 | Appending the dropped final sample restores the series. |
| `SeriesOps.Ewma` | graphite_nagios/app.py:121-141 | A falsy argument (such as the empty list) raises 'no series', and a truthy non-series raises SyntaxError. A singleton yields its element. Longer series smooth the tail starting from `series[0]`. |
| `SeriesOps.EwmaFrom` | graphite_nagios/app.py:122-131 | The inner `do` fails exactly when the accumulator is None and the next sample is a number, with TypeError. It yields None only when it started from None. |
| `SeriesOps.WeightedAverageExamples` | graphite_nagios/app.py:121-141 | With the default `alpha=0.4`, `[10]` gives 10 and `[10, 20]` gives 16. |
| `SeriesOps.EwmaStopsAtGap` | graphite_nagios/app.py:122-131 | Everything after the first gap in the tail is ignored. |
| `SeriesOps.Smooth` | graphite_nagios/app.py:128 | definition: one smoothing step, `x + alpha*(acc - x)`. |
| `SeriesOps.WeightedAverage` | graphite_nagios/app.py:185 | definition: the `weighted-average` binding, `ewma` with its default `alpha=0.4` of line 121. |
| `SeriesOps.SmoothStepInRange` | graphite_nagios/app.py:128 | With 0 <= alpha <= 1, one step `x + alpha*(acc - x)` stays within any bounds of acc and x. |
| `SeriesOps.EwmaWithinRange` | graphite_nagios/app.py:122-131 | With 0 <= alpha <= 1, a start value and samples in [lo, hi] smooth to a value in [lo, hi]. |
| `MetricFetcher.IsErrorStatus` | graphite_nagios/app.py:165 | definition: the statuses on which `raise_for_status` raises, 400 to 599. |
| `MetricFetcher.ValueColumn` | graphite_nagios/app.py:173-175 | definition: the first field of each datapoint, in order. |
| `MetricFetcher.ShapeResponse` | graphite_nagios/app.py:160-177 | 404 and an empty array mean 'metric not found'. 401 means 'bad username/password'. Other 4xx/5xx statuses are HTTP errors. One series object yields its value column. Several yield one column per object, in backend order. |
| `MetricFetcher.ShapeIgnoresTimestamps` | graphite_nagios/app.py:172-175 | Answers that differ only in timestamps shape alike. |
| `MetricFetcher.FetchedFeedsSeriesOps` | graphite_nagios/app.py:172-175 | A single fetched series is a valid time series. Several pass the multi-series gate exactly when the backend gave them equal lengths. |
| `EvalEnvironment.Starred` | graphite_nagios/app.py:194 | definition: the name `*k*` under which option k is bound. |
| `EvalEnvironment.Install` | graphite_nagios/app.py:184-192 | definition: the nine built-in bindings written over a namespace, in the source's order. |
| `EvalEnvironment.EnvFor` | graphite_nagios/app.py:180-197 | definition: the namespace `create_env` returns, the installed standard environment updated with the starred options. |
| `EvalEnvironment.StarredInjective` | graphite_nagios/app.py:194 | Distinct option names are bound under distinct names. |
| `EvalEnvironment.BuiltinNotStarred` | graphite_nagios/app.py:184-194 | No built-in name has the `*name*` form, so no option can shadow a built-in. |
| `EvalEnvironment.ConfigBindings` | graphite_nagios/app.py:194 | Every option with a value is bound, boxed, under `*k*`, and every binding comes from such an option. |
| `EvalEnvironment.ConfigBoundIffPresent` | graphite_nagios/app.py:194 | `*k*` is bound exactly when option k is present and not None. |
| `EvalEnvironment.InstalledBuiltin` | graphite_nagios/app.py:184-192 | After installation each built-in is bound under its own name. |
| `EvalEnvironment.InstallKeeps` | graphite_nagios/app.py:184-192 | Installation leaves every other name as it was. |
| `EvalEnvironment.EnvLookup` | graphite_nagios/app.py:180-197 | In the final namespace every built-in and every present option is bound as above, whatever the configuration. |
| `EvalEnvironment.EnvKeepsStandard` | graphite_nagios/app.py:180-197 | A standard name that is neither a built-in nor a bound option keeps its binding. |
| `EvalEnvironment.Environment.constructor` | graphite_nagios/app.py:181 | The namespace starts as the interpreter's standard environment. |
| `EvalEnvironment.Environment.Set` | graphite_nagios/app.py:184-192 | `env[name] = b` replaces one entry and keeps the rest. |
| `EvalEnvironment.Environment.Update` | graphite_nagios/app.py:195 | `env.update(extra)` makes the entries of `extra` win and keeps the rest. |
| `EvalEnvironment.CreateEnv` | graphite_nagios/app.py:180-197 | A fresh namespace: the standard environment, overwritten by the nine built-ins, overwritten by the starred options. |
| `CheckRunner.Classify` | graphite_nagios/app.py:269-275 | CRITICAL iff the value is strictly above critical. WARNING iff it is not, but is strictly above warning. OK iff it is above neither. |
| `CheckRunner.Verdict` | graphite_nagios/app.py:256-276 | The usage check comes first. A missing method or a failed evaluation is UNKNOWN with the error text. A computed value is classified, with the message `method: (value: v)`. |
| `CheckRunner.UsageErrorExactly` | graphite_nagios/app.py:256-258 | The usage error happens exactly when warning and critical are 0 and the method is empty. |
| `CheckRunner.EvaluationFailureIsUnknown` | graphite_nagios/app.py:256-265 | Whenever the usage test lets the run through and a method is given, a failed evaluation gives UNKNOWN with that text and exit 3, whether or not `--critical` is present. |
| `CheckRunner.ThresholdExitCodes` | graphite_nagios/app.py:267-276 | With all flags present and a computed value v: exit 2 if v > critical, else 1 if v > warning, else 0. |
| `CheckRunner.EqualityNeverAlerts` | graphite_nagios/app.py:269-275 | A value equal to critical is never CRITICAL (it can still be WARNING). A value equal to warning is never WARNING. |
| `CheckRunner.ClassifyMonotone` | graphite_nagios/app.py:269-275 | A larger value never gets a lower level. |
| `CheckRunner.LineNamesExitStatus` | graphite_nagios/app.py:256-276 | Whenever a run reports a classified value or UNKNOWN, its printed line starts with the Nagios status name (`OK`, `WARNING`, `CRITICAL`, `UNKNOWN`) of the exit code it exits with. |
| `CheckRunner.UsageCheck` | graphite_nagios/app.py:256-258 | The short-circuit test. An absent `--warning` crashes on `args['warning']`. Warning 0 with no `--critical` crashes on `args['critical']`. Warning 0, critical 0 and no `--method` crashes on `args['method']`. Warning 0, critical 0 and an empty method is the usage error. Any truthy operand lets the run through. |
| `CheckRunner.CrashedExactly` | graphite_nagios/app.py:256-276 | A run ends in an escaped KeyError exactly in four cases: the usage test reads an absent `--warning`, `--critical` or `--method`, or a value was computed and `--critical` is absent. The key is always `warning`, `critical` or `method`. |
| `CheckRunner.ExitCode` | graphite_nagios/app.py:257-276 | The exit code is in 0..3. It is 0 iff OK, 2 iff CRITICAL, 3 iff UNKNOWN. It is 1 for WARNING, the usage error, and an escaped exception. |
| `CheckRunner.OutputLine` | graphite_nagios/app.py:257-275 | A line is printed unless an exception escapes. The usage error prints its usage message. UNKNOWN prints `UNKNOWN: ` and the error text. A classified run prints its level name, `: `, and the message. |

## Left out

- The HTTP request of `get_metrics` (app.py:146-158) is not modelled. This covers reading `*endpoint*`, `*interval*`, `*username*` and `*password*` from the namespace, basic authentication, the query parameters and the transport. The status code and the parsed JSON array are inputs instead.
- Answers that are not a JSON array of objects with `datapoints` pairs are not modelled (a body that is not JSON, a missing key, a short pair).
- The Lisp interpreter is not part of this model: `standard_environment`, `unboxedfn`, `box`, `unbox`, `unboxenv`, `eval_fileio`, `load` and `repl`. The standard environment is a parameter. Boxing is the `Boxed` tag. The evaluation of the check expression is a function parameter that returns a number or an error text.
- Argument parsing, reading the config file, default values, discovering scripts, and the `--repl` branch (app.py:200-254) are command-line and I/O plumbing. `print` and `sys.exit` are modelled only as the printed line and the exit code.
- Numbers are exact `real`s. IEEE rounding, the int/float distinction, and Python booleans counting as numbers are not modelled.
- Python 2 comparisons between a non-numeric result and a threshold are not modelled. The evaluation outcome is a number or a failure.
- `SeriesOps.Ewma`: the TypeError raised for `None - x` carries the start of the interpreter's message only. The operand type names are not modelled.
- `SeriesOps.Ewma` does not model the interpreter's recursion limit. `do` calls itself once per sample of the tail (app.py:131), and CPython 2 stops at about 1000 frames. So on a series with about 1000 or more samples before the first gap, the source raises RuntimeError('maximum recursion depth exceeded') and `main` reports UNKNOWN. The model, and `SeriesOps.EwmaWithinRange`, give a value there instead.
- `EvalEnvironment.ConfigValue` holds strings, integers and booleans only. Floats, lists, objects and other JSON values that a config file may carry are not modelled. The binding rule for them in the source is the same (app.py:194), but the model cannot express such an option.

## Findings

| source | as written | input that shows it | evidently intended | confidence | as-written member | corrected member |
|---|---|---|---|---|---|---|
| graphite_nagios/app.py:65 | `min` calls `assert_time_series()` without the series, so every call raises TypeError before any sample is read | `(min (list 1))`, that is the series `[1]` | validate `series`, as `max` does at line 55, then fold with the strictly-less rule | high; not executed | `SeriesOps.MinAsWrittenRejectsEverySeries` | `SeriesOps.SingleMin` |
