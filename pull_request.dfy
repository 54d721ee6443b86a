/**
 * The pull-request model (`PullRequest`): an immutable record of a pull
 * request's state and lifecycle dates, the dates it renders, and the icon that
 * stands for its state in the editor's markdown and in its tree views.
 */
module PullRequests {
  import opened Wrappers
  import opened DateFormat

  /** `PullRequestState`; `Unrecognized` stands for any other value a provider might send. */
  datatype PullRequestState = Open | Closed | Merged | Unrecognized

  /**
   * A pull request. Provider, author, title and url are opaque to every
   * operation here and are not part of the model.
   */
  datatype PullRequest = PullRequest(
    id: string,
    state: PullRequestState,
    date: int,
    closedDate: Option<int>,
    mergedDate: Option<int>)

  // ---------------------------------------------------------------------------
  // Dates

  /**
   * `mergedDate ?? closedDate ?? date`: the most final date the pull request has,
   * whatever order the three dates are in.
   */
  function EffectiveDate(pr: PullRequest): (d: int)
    ensures pr.mergedDate.Some? ==> d == pr.mergedDate.value
    ensures pr.mergedDate.None? && pr.closedDate.Some? ==> d == pr.closedDate.value
    ensures pr.mergedDate.None? && pr.closedDate.None? ==> d == pr.date
  {
    match pr.mergedDate
    case Some(m) => m
    case None =>
      match pr.closedDate
      case Some(c) => c
      case None => pr.date
  }

  /** `formatDate(format)`: the most final date, in the given pattern or the default one. */
  function FormatDate(pr: PullRequest, format: Option<string>, renderer: DateRenderer): (s: string)
    ensures pr.mergedDate.Some? ==> s == renderer.absolute(pr.mergedDate.value, Pattern(format))
    ensures pr.mergedDate.None? && pr.closedDate.Some? ==> s == renderer.absolute(pr.closedDate.value, Pattern(format))
    ensures pr.mergedDate.None? && pr.closedDate.None? ==> s == renderer.absolute(pr.date, Pattern(format))
  {
    renderer.absolute(EffectiveDate(pr), Pattern(format))
  }

  /** `formatDateFromNow()`: the most final date relative to now. */
  function FormatDateFromNow(pr: PullRequest, renderer: DateRenderer): (s: string)
    ensures pr.mergedDate.Some? ==> s == renderer.relative(pr.mergedDate.value)
    ensures pr.mergedDate.None? && pr.closedDate.Some? ==> s == renderer.relative(pr.closedDate.value)
    ensures pr.mergedDate.None? && pr.closedDate.None? ==> s == renderer.relative(pr.date)
  {
    renderer.relative(EffectiveDate(pr))
  }

  /** `formatClosedDate(format)`: "" when there is no closed date. */
  function FormatClosedDate(pr: PullRequest, format: Option<string>, renderer: DateRenderer): (s: string)
    ensures pr.closedDate.None? ==> s == ""
    ensures pr.closedDate.Some? ==> s == renderer.absolute(pr.closedDate.value, Pattern(format))
  {
    if pr.closedDate.None? then "" else renderer.absolute(pr.closedDate.value, Pattern(format))
  }

  /** `formatClosedDateFromNow()`: "" when there is no closed date. */
  function FormatClosedDateFromNow(pr: PullRequest, renderer: DateRenderer): (s: string)
    ensures pr.closedDate.None? ==> s == ""
    ensures pr.closedDate.Some? ==> s == renderer.relative(pr.closedDate.value)
  {
    if pr.closedDate.None? then "" else renderer.relative(pr.closedDate.value)
  }

  /** `formatMergedDate(format)`: "" when there is no merged date. */
  function FormatMergedDate(pr: PullRequest, format: Option<string>, renderer: DateRenderer): (s: string)
    ensures pr.mergedDate.None? ==> s == ""
    ensures pr.mergedDate.Some? ==> s == renderer.absolute(pr.mergedDate.value, Pattern(format))
  {
    if pr.mergedDate.None? then "" else renderer.absolute(pr.mergedDate.value, Pattern(format))
  }

  /** `formatMergedDateFromNow()`: "" when there is no merged date. */
  function FormatMergedDateFromNow(pr: PullRequest, renderer: DateRenderer): (s: string)
    ensures pr.mergedDate.None? ==> s == ""
    ensures pr.mergedDate.Some? ==> s == renderer.relative(pr.mergedDate.value)
  {
    if pr.mergedDate.None? then "" else renderer.relative(pr.mergedDate.value)
  }

  /**
   * `formatUpdatedDate(format)`: always the base date, which is what the
   * general accessor shows for a pull request never closed or merged.
   */
  function FormatUpdatedDate(pr: PullRequest, format: Option<string>, renderer: DateRenderer): (s: string)
    ensures s == FormatDate(pr.(closedDate := None, mergedDate := None), format, renderer)
  {
    renderer.absolute(pr.date, Pattern(format))
  }

  /**
   * `formatUpdatedDateFromNow()`: always the base date, which is what the
   * general accessor shows for a pull request never closed or merged.
   */
  function FormatUpdatedDateFromNow(pr: PullRequest, renderer: DateRenderer): (s: string)
    ensures s == FormatDateFromNow(pr.(closedDate := None, mergedDate := None), renderer)
  {
    renderer.relative(pr.date)
  }

  /**
   * `formattedDate`: the most final date, absolute in the configured pattern
   * exactly when the process-wide style is Absolute, relative otherwise (also
   * before any reset).
   */
  function FormattedDate(pr: PullRequest, settings: DateFormatting, renderer: DateRenderer): (s: string)
    reads settings
    ensures settings.dateStyle == Some(Absolute) ==>
      s == renderer.absolute(EffectiveDate(pr), Pattern(settings.dateFormat))
    ensures settings.dateStyle != Some(Absolute) ==> s == renderer.relative(EffectiveDate(pr))
  {
    if settings.UsesAbsolute() then FormatDate(pr, settings.dateFormat, renderer)
    else FormatDateFromNow(pr, renderer)
  }

  /**
   * A settings change followed by a read: once the settings object has been
   * reset, `formattedDate` on an existing pull request follows the new settings.
   */
  method ResetThenRead(settings: DateFormatting, pr: PullRequest, cfgFormat: Option<string>, cfgStyle: DateStyle,
                       renderer: DateRenderer)
    returns (s: string)
    modifies settings
    ensures settings.dateFormat == cfgFormat && settings.dateStyle == Some(cfgStyle)
    ensures cfgStyle == Absolute ==> s == renderer.absolute(EffectiveDate(pr), Pattern(cfgFormat))
    ensures cfgStyle == Relative ==> s == renderer.relative(EffectiveDate(pr))
  {
    settings.Reset(cfgFormat, cfgStyle);
    s := FormattedDate(pr, settings, renderer);
  }

  /**
   * How the general date accessors relate to the specific ones: a merged pull
   * request shows its merged date, a closed one its closed date, and one with
   * neither shows its base date and empty closed and merged dates.
   */
  lemma FinalDateAccessors(pr: PullRequest, format: Option<string>, renderer: DateRenderer)
    ensures pr.mergedDate.Some? ==>
      FormatDate(pr, format, renderer) == FormatMergedDate(pr, format, renderer) &&
      FormatDateFromNow(pr, renderer) == FormatMergedDateFromNow(pr, renderer)
    ensures pr.mergedDate.None? && pr.closedDate.Some? ==>
      FormatDate(pr, format, renderer) == FormatClosedDate(pr, format, renderer) &&
      FormatDateFromNow(pr, renderer) == FormatClosedDateFromNow(pr, renderer)
    ensures pr.mergedDate.None? && pr.closedDate.None? ==>
      FormatDate(pr, format, renderer) == FormatUpdatedDate(pr, format, renderer) &&
      FormatDateFromNow(pr, renderer) == FormatUpdatedDateFromNow(pr, renderer) &&
      FormatClosedDate(pr, format, renderer) == "" && FormatMergedDate(pr, format, renderer) == ""
  {
  }

  /** The updated date ignores the closed and merged dates, whatever they are. */
  lemma UpdatedDateIgnoresLifecycle(pr: PullRequest, closed: Option<int>, merged: Option<int>,
                                    format: Option<string>, renderer: DateRenderer)
    ensures FormatUpdatedDate(pr.(closedDate := closed, mergedDate := merged), format, renderer)
         == FormatUpdatedDate(pr, format, renderer)
    ensures FormatUpdatedDateFromNow(pr.(closedDate := closed, mergedDate := merged), renderer)
         == FormatUpdatedDateFromNow(pr, renderer)
  {
  }

  /**
   * The memoized accessors may serve a cached result for any format with the
   * same key: each result depends on the format only through its key.
   */
  lemma MemoizedFormatsAreSound(pr: PullRequest, f1: Option<string>, f2: Option<string>, renderer: DateRenderer)
    requires MemoKey(f1) == MemoKey(f2)
    ensures FormatDate(pr, f1, renderer) == FormatDate(pr, f2, renderer)
    ensures FormatClosedDate(pr, f1, renderer) == FormatClosedDate(pr, f2, renderer)
    ensures FormatMergedDate(pr, f1, renderer) == FormatMergedDate(pr, f2, renderer)
    ensures FormatUpdatedDate(pr, f1, renderer) == FormatUpdatedDate(pr, f2, renderer)
  {
    MemoKeyDeterminesPattern(f1, f2);
  }

  // ---------------------------------------------------------------------------
  // Icons

  /** The editor's colour theme kinds. */
  datatype ColorThemeKind = Light | Dark | HighContrast | HighContrastLight

  /** The semantic colour tokens a themed icon may carry. */
  datatype ThemeColor = OpenPullRequestIconColor | ClosedPullRequestIconColor | MergedPullRequestIconColor

  /** A themed icon: a codicon name and an optional colour token. */
  datatype ThemeIcon = ThemeIcon(id: string, color: Option<ThemeColor>)

  /** `getThemeIcon`: the icon for the tree views, chosen by state alone. */
  function GetThemeIcon(pr: PullRequest): (icon: ThemeIcon)
    ensures pr.state == Open ==> icon == ThemeIcon("git-pull-request", Some(OpenPullRequestIconColor))
    ensures pr.state == Closed ==> icon == ThemeIcon("git-pull-request-closed", Some(ClosedPullRequestIconColor))
    ensures pr.state == Merged ==> icon == ThemeIcon("git-merge", Some(MergedPullRequestIconColor))
    ensures pr.state == Unrecognized ==> icon == ThemeIcon("git-pull-request", None)
  {
    match pr.state
    case Open => ThemeIcon("git-pull-request", Some(OpenPullRequestIconColor))
    case Closed => ThemeIcon("git-pull-request-closed", Some(ClosedPullRequestIconColor))
    case Merged => ThemeIcon("git-merge", Some(MergedPullRequestIconColor))
    case Unrecognized => ThemeIcon("git-pull-request", None)
  }

  /** A codicon reference in markdown. */
  function Glyph(id: string): string {
    "$(" + id + ")"
  }

  /** A markdown span drawing `glyph` in the colour `hex`: the colour, then the glyph, then the closing tag. */
  function ColoredSpan(hex: string, glyph: string): (span: string)
    ensures |span| == |hex| + |glyph| + 29
    ensures span[19..19 + |hex|] == hex
    ensures span[|span| - 7 - |glyph|..|span| - 7] == glyph
    ensures span[|span| - 7..] == "</span>"
  {
    "<span style=\"color:" + hex + ";\">" + glyph + "</span>"
  }

  /** `getMarkdownIcon`: the icon for markdown, its colour fixed per state and theme kind. */
  function GetMarkdownIcon(pr: PullRequest, kind: ColorThemeKind): (md: string)
    ensures md == "$(git-pull-request)" <==> pr.state == Unrecognized
  {
    match pr.state
    case Open =>
      ColoredSpan((if kind == Dark then "#3fb950" else "#1a7f37"), "$(git-pull-request)")
    case Closed =>
      ColoredSpan((if kind == Dark then "#f85149" else "#cf222e"), "$(git-pull-request-closed)")
    case Merged =>
      ColoredSpan((if kind == Dark then "#a371f7" else "#8250df"), "$(git-merge)")
    case Unrecognized =>
      "$(git-pull-request)"
  }

  /** The hard-coded colours the markdown icon uses for each token: dark theme, or any other. */
  function Palette(color: ThemeColor, kind: ColorThemeKind): (hex: string)
    ensures |hex| == 7 && hex[0] == '#'
    ensures kind == Dark ==> hex in {"#3fb950", "#f85149", "#a371f7"}
    ensures kind != Dark ==> hex in {"#1a7f37", "#cf222e", "#8250df"}
  {
    match color
    case OpenPullRequestIconColor => if kind == Dark then "#3fb950" else "#1a7f37"
    case ClosedPullRequestIconColor => if kind == Dark then "#f85149" else "#cf222e"
    case MergedPullRequestIconColor => if kind == Dark then "#a371f7" else "#8250df"
  }

  /**
   * The two renderings make the same choice: the markdown icon is the themed
   * icon's glyph, drawn in its token's colour when it has one and bare otherwise.
   */
  lemma MarkdownIconRendersThemeIcon(pr: PullRequest, kind: ColorThemeKind)
    ensures var icon := GetThemeIcon(pr);
      GetMarkdownIcon(pr, kind) ==
        if icon.color.Some? then ColoredSpan(Palette(icon.color.value, kind), Glyph(icon.id))
        else Glyph(icon.id)
  {
    match pr.state
    case Open =>
      assert Glyph("git-pull-request") == "$(git-pull-request)";
      assert Palette(OpenPullRequestIconColor, kind) == (if kind == Dark then "#3fb950" else "#1a7f37");
    case Closed =>
      assert Glyph("git-pull-request-closed") == "$(git-pull-request-closed)";
      assert Palette(ClosedPullRequestIconColor, kind) == (if kind == Dark then "#f85149" else "#cf222e");
    case Merged =>
      assert Glyph("git-merge") == "$(git-merge)";
      assert Palette(MergedPullRequestIconColor, kind) == (if kind == Dark then "#a371f7" else "#8250df");
    case Unrecognized => assert Glyph("git-pull-request") == "$(git-pull-request)";
  }

  /** Each recognised state has its own themed icon and its own markdown icon. */
  lemma IconsAreDistinct(p: PullRequest, q: PullRequest, kind: ColorThemeKind)
    requires p.state != q.state
    requires p.state != Unrecognized || q.state != Unrecognized
    ensures GetThemeIcon(p) != GetThemeIcon(q)
    ensures GetMarkdownIcon(p, kind) != GetMarkdownIcon(q, kind)
  {
  }
}
