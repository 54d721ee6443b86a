/**
 * What the tag and pull-request models share about dates: the user's preferred
 * style, the fallback pattern, the key under which a formatted date is cached,
 * and the process-wide formatting settings that a configuration change resets.
 *
 * Dates are integer timestamps (milliseconds, as `Date.getTime()` gives them).
 * The rendering itself (`formatDate` and `fromNow` of system/date) is not part
 * of this model: it is supplied as a `DateRenderer`, a pair of functions.
 */
module DateFormat {
  import opened Wrappers

  /** The `defaultDateStyle` setting. */
  datatype DateStyle = Absolute | Relative

  /** The pattern used when a formatting call is given no format, or a null one. */
  const DefaultPattern: string := "MMMM Do, YYYY h:mma"

  /** `format ?? 'MMMM Do, YYYY h:mma'`: the pattern a formatting call renders with. */
  function Pattern(format: Option<string>): (p: string)
    ensures format.None? ==> p == DefaultPattern
    ensures format.Some? ==> p == format.value
  {
    match format
    case Some(f) => f
    case None => DefaultPattern
  }

  /**
   * The cache key of the memoized formatting methods:
   * `format == null ? 'MMMM Do, YYYY h:mma' : format`.
   */
  function MemoKey(format: Option<string>): (k: string)
    ensures k == Pattern(format)
  {
    if format.None? then DefaultPattern else format.value
  }

  /**
   * The memoize key and the `??` fallback, written separately in the source,
   * agree: two formats share a key exactly when they render with the same
   * pattern, and a null format renders like the default pattern. (The cache
   * itself is not part of this model.)
   */
  lemma MemoKeyDeterminesPattern(f1: Option<string>, f2: Option<string>)
    ensures MemoKey(f1) == MemoKey(f2) <==> Pattern(f1) == Pattern(f2)
    ensures Pattern(None) == Pattern(Some(DefaultPattern))
  {
  }

  /**
   * The external date renderer: `absolute(date, pattern)` is `formatDate` and
   * `relative(date)` is `fromNow` ("3 days ago").
   */
  datatype DateRenderer = DateRenderer(absolute: (int, string) -> string, relative: int -> string)

  /**
   * A process-wide formatting object (`TagDateFormatting`,
   * `PullRequestDateFormatting`): the configured pattern, possibly null, and the
   * configured style, which is undefined until the first reset.
   */
  class DateFormatting {
    var dateFormat: Option<string>
    var dateStyle: Option<DateStyle>

    /** The state at load time, before any reset. */
    constructor ()
      ensures dateFormat == None && dateStyle == None
    {
      dateFormat := None;
      dateStyle := None;
    }

    /** Formatting is absolute exactly when the style is `DateStyle.Absolute`. */
    predicate UsesAbsolute(): (b: bool)
      reads this
      ensures b <==> dateStyle == Some(Absolute)
      ensures dateStyle == None ==> !b
    {
      dateStyle == Some(Absolute)
    }

    /** Reads the `defaultDateFormat` and `defaultDateStyle` settings into the object. */
    method Reset(cfgFormat: Option<string>, cfgStyle: DateStyle)
      modifies this
      ensures dateFormat == cfgFormat && dateStyle == Some(cfgStyle)
      ensures UsesAbsolute() <==> cfgStyle == Absolute
    {
      dateFormat := cfgFormat;
      dateStyle := Some(cfgStyle);
    }
  }
}
