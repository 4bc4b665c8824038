/**
 * The end of `main` (app.py): the usage check, the evaluation of the
 * check expression, and the threshold decision that picks the printed line
 * and the exit code.
 */
module CheckRunner {
  import opened Wrappers
  import Values

  /** The three levels a successful check can report. */
  datatype Level = Ok | Warning | Critical

  /**
   * The flags `main` reads from its filtered `args` dict. `None` means the
   * key is absent: argparse gave None and the comprehension dropped it.
   * `expression` is the `method` flag, the text of the check expression.
   */
  datatype Args = Args(warning: Option<int>, critical: Option<int>, expression: Option<string>)

  /**
   * What the expression evaluator gives back: a number together with its
   * printed form (`%s` of the result), or the text of the exception it raised.
   */
  datatype EvalOutcome = Evaluated(value: real, shown: string) | EvalFailed(text: string)

  /** How a run of `main` ends. */
  datatype Report =
    | UsageError
    | Unknown(text: string)
    | Checked(level: Level, message: string)
      /** An unguarded `args[key]` of an absent key: the KeyError escapes `main`. */
    | Crashed(missingKey: string)

  const USAGE_MESSAGE := "Error:  must specify warning, critical, and method"

  /**
   * The threshold decision: strictly above critical is CRITICAL, else
   * strictly above warning is WARNING, else OK.
   */
  function Classify(value: real, warning: int, critical: int): (l: Level)
    ensures l == Critical <==> value > critical as real
    ensures l == Warning <==> value <= critical as real && value > warning as real
    ensures l == Ok <==> value <= critical as real && value <= warning as real
  {
    if value > critical as real then Critical
    else if value > warning as real then Warning
    else Ok
  }

  function LevelName(l: Level): string
  {
    match l
    case Ok => "OK"
    case Warning => "WARNING"
    case Critical => "CRITICAL"
  }

  /** `sys.exit` codes; an escaped exception makes the interpreter exit with 1. */
  function ExitCode(r: Report): (code: int)
    ensures 0 <= code <= 3
    ensures code == 0 <==> r.Checked? && r.level == Ok
    ensures code == 2 <==> r.Checked? && r.level == Critical
    ensures code == 3 <==> r.Unknown?
    ensures code == 1 <==> r.UsageError? || r.Crashed? || (r.Checked? && r.level == Warning)
  {
    match r
    case UsageError => 1
    case Unknown(_) => 3
    case Checked(Ok, _) => 0
    case Checked(Warning, _) => 1
    case Checked(Critical, _) => 2
    case Crashed(_) => 1
  }

  /** The line printed on standard output (none when the KeyError escapes). */
  function OutputLine(r: Report): (line: Option<string>)
    ensures line.None? <==> r.Crashed?
    ensures r.UsageError? ==> line == Some(USAGE_MESSAGE)
    ensures r.Unknown? ==> line == Some("UNKNOWN: " + r.text)
    ensures r.Checked? ==> line.Some? && LevelName(r.level) + ": " <= line.value &&
                           line.value[|LevelName(r.level) + ": "|..] == r.message
  {
    match r
    case UsageError => Some(USAGE_MESSAGE)
    case Unknown(text) => Some("UNKNOWN: " + text)
    case Checked(l, msg) => Some(LevelName(l) + ": " + msg)
    case Crashed(_) => None
  }

  /**
   * `if not args['warning'] and not args['critical'] and not args['method']`:
   * None when the check passes, the report otherwise. Each operand is read
   * only when the ones before it were falsy, and reading an absent key
   * raises a KeyError that nothing catches.
   */
  function UsageCheck(args: Args): (r: Option<Report>)
    ensures r == Some(Crashed("warning")) <==> args.warning.None?
    ensures r == Some(Crashed("critical")) <==> args.warning == Some(0) && args.critical.None?
    ensures r == Some(Crashed("method")) <==> args.warning == Some(0) && args.critical == Some(0) && args.expression.None?
    ensures r == Some(UsageError) <==> args == Args(Some(0), Some(0), Some(""))
    ensures r.None? <==>
              args.warning.Some? &&
              (args.warning.value != 0 ||
               (args.critical.Some? && (args.critical.value != 0 ||
                                        (args.expression.Some? && args.expression.value != ""))))
  {
    if args.warning.None? then Some(Crashed("warning"))
    else if Values.Truthy(Values.Num(args.warning.value as real)) then None
    else if args.critical.None? then Some(Crashed("critical"))
    else if Values.Truthy(Values.Num(args.critical.value as real)) then None
    else if args.expression.None? then Some(Crashed("method"))
    else if Values.Truthy(Values.Str(args.expression.value)) then None
    else Some(UsageError)
  }

  /**
   * The rest of `main`: evaluate `(method)` (every failure, including the
   * KeyError of an absent method, is UNKNOWN), then compare with the thresholds.
   */
  function Verdict(args: Args, evaluate: string -> EvalOutcome): (r: Report)
    ensures UsageCheck(args).Some? ==> r == UsageCheck(args).value
    ensures UsageCheck(args).None? && args.expression.None? ==> r == Unknown("'method'")
    ensures UsageCheck(args).None? && args.expression.Some? && evaluate("(" + args.expression.value + ")").EvalFailed? ==>
              r == Unknown(evaluate("(" + args.expression.value + ")").text)
    ensures r.Checked? ==>
              args.warning.Some? && args.critical.Some? && args.expression.Some? &&
              var outcome := evaluate("(" + args.expression.value + ")");
              outcome.Evaluated? &&
              r.message == args.expression.value + ": (value: " + outcome.shown + ")" &&
              r.level == Classify(outcome.value, args.warning.value, args.critical.value)
  {
    match UsageCheck(args)
    case Some(report) => report
    case None =>
      if args.expression.None? then Unknown("'method'")
      else
        match evaluate("(" + args.expression.value + ")")
        case EvalFailed(text) => Unknown(text)
        case Evaluated(value, shown) =>
          var msg := args.expression.value + ": (value: " + shown + ")";
          if args.critical.None? then Crashed("critical")
          else Checked(Classify(value, args.warning.value, args.critical.value), msg)
  }

  /** The usage error is reported for exactly one combination of flags. */
  lemma UsageErrorExactly(args: Args, evaluate: string -> EvalOutcome)
    ensures Verdict(args, evaluate) == UsageError <==> args == Args(Some(0), Some(0), Some(""))
  {
  }

  /** Any failure of the evaluation is UNKNOWN with exit code 3. */
  lemma EvaluationFailureIsUnknown(args: Args, evaluate: string -> EvalOutcome, m: string)
    requires UsageCheck(args).None? && args.expression == Some(m)
    requires evaluate("(" + m + ")").EvalFailed?
    ensures Verdict(args, evaluate) == Unknown(evaluate("(" + m + ")").text)
    ensures ExitCode(Verdict(args, evaluate)) == 3
  {
  }

  /**
   * With every flag given and a value computed, the exit code is 2 above
   * critical, else 1 above warning, else 0.
   */
  lemma ThresholdExitCodes(w: int, c: int, m: string, evaluate: string -> EvalOutcome)
    requires Args(Some(w), Some(c), Some(m)) != Args(Some(0), Some(0), Some(""))
    requires evaluate("(" + m + ")").Evaluated?
    ensures var v := evaluate("(" + m + ")").value;
      ExitCode(Verdict(Args(Some(w), Some(c), Some(m)), evaluate)) ==
        if v > c as real then 2 else if v > w as real then 1 else 0
  {
  }

  /**
   * A value equal to a threshold does not cross that threshold: equal to
   * critical is never CRITICAL (it may still be WARNING), equal to warning
   * is never WARNING.
   */
  lemma EqualityNeverAlerts(value: real, warning: int, critical: int)
    ensures value == critical as real ==> Classify(value, warning, critical) != Critical
    ensures value == warning as real ==> Classify(value, warning, critical) != Warning
  {
  }

  /**
   * A run crashes with an escaped KeyError exactly when the usage test reads
   * an absent flag, or when a value was computed and `--critical` is absent.
   */
  lemma CrashedExactly(args: Args, evaluate: string -> EvalOutcome)
    ensures Verdict(args, evaluate).Crashed? <==>
              args.warning.None? ||
              (args.warning == Some(0) && args.critical.None?) ||
              (args.warning == Some(0) && args.critical == Some(0) && args.expression.None?) ||
              (UsageCheck(args).None? && args.expression.Some? && args.critical.None? &&
               evaluate("(" + args.expression.value + ")").Evaluated?)
    ensures Verdict(args, evaluate).Crashed? ==>
              Verdict(args, evaluate).missingKey in {"warning", "critical", "method"}
  {
  }

  function Rank(l: Level): nat
  {
    match l
    case Ok => 0
    case Warning => 1
    case Critical => 2
  }

  /** A larger value never gets a lower level. */
  lemma ClassifyMonotone(v1: real, v2: real, warning: int, critical: int)
    requires v1 <= v2
    ensures Rank(Classify(v1, warning, critical)) <= Rank(Classify(v2, warning, critical))
  {
  }

  /** The Nagios status name that belongs to each exit code. */
  function StatusName(code: int): string
  {
    if code == 0 then "OK"
    else if code == 1 then "WARNING"
    else if code == 2 then "CRITICAL"
    else "UNKNOWN"
  }

  /**
   * Whenever the run reports a status (a classified value or UNKNOWN), the
   * printed line starts with the status name of the exit code it exits with.
   */
  lemma LineNamesExitStatus(args: Args, evaluate: string -> EvalOutcome)
    ensures var r := Verdict(args, evaluate);
      (r.Checked? || r.Unknown?) ==>
        OutputLine(r).Some? && StatusName(ExitCode(r)) + ": " <= OutputLine(r).value
  {
  }
}
