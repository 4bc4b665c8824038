/**
 * The values that the check language hands to the built-in series
 * functions, the exceptions those functions raise, and the typed view of a
 * time series once it has been validated.
 */
module Values {
  import opened Wrappers

  /**
   * A value passed to a built-in: a number, `None`, a list, a string, or any
   * other object (a dict, ...), of which only its truthiness matters here.
   */
  datatype Value = Num(x: real) | Null | List(items: seq<Value>) | Str(text: string) | Other(truthy: bool)

  /** One sample of a time series; `None` is a gap. */
  type Sample = Option<real>

  /** A validated time series. */
  type Series = seq<Sample>

  /** The exceptions the core raises, with the text they carry. */
  datatype Error =
    | SyntaxError(msg: string)
    | IndexError(msg: string)
    | RuntimeError(msg: string)
    | TypeError(msg: string)
    | HTTPError(status: int)

  /** Python's truthiness (`not v` is `!Truthy(v)`). */
  predicate Truthy(v: Value)
  {
    match v
    case Num(x) => x != 0.0
    case Null => false
    case List(items) => items != []
    case Str(text) => text != ""
    case Other(t) => t
  }

  /** The list a series is as a value of the check language. */
  function SeriesValue(s: Series): Value
  {
    List(seq(|s|, i requires 0 <= i < |s| => if s[i].Some? then Num(s[i].value) else Null))
  }

  /** The list of lists a collection of series is. */
  function MultiValue(ss: seq<Series>): Value
  {
    List(seq(|ss|, j requires 0 <= j < |ss| => SeriesValue(ss[j])))
  }
}
