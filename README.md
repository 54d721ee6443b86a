# GitLens tag and pull-request models in Dafny

This project models two value objects of GitLens, the source-control extension
for VS Code:

- `GitTag` (src/git/models/tag.ts): a tag with its `tag` discriminator, its
  reference name, its short name (`getBasename`), its formatted dates, and
  `GitTag.sort`, which sorts a caller's array of tags in place by date or by
  name and returns that array.
- `PullRequest` (src/git/models/pullRequest.ts): a pull request with its
  lifecycle dates, the "most final" date it shows (merged, else closed, else
  the base date), its per-date accessors, and the icon chosen by its state for
  markdown and for tree views.
- The process-wide formatting objects `TagDateFormatting` and
  `PullRequestDateFormatting`. They hold the configured date pattern and date
  style, and `reset` reloads them from the settings.

Files:

- `wrappers.dfy` (module `Wrappers`): `Option`, which stands for a JavaScript
  value that may be `null` or `undefined`.
- `date_format.dfy` (module `DateFormat`): the date style, the default pattern
  `MMMM Do, YYYY h:mma`, the `??` fallback (`Pattern`), the memoization key
  (`MemoKey`), the external renderer, and the class `DateFormatting`. The two
  source objects are identical, so one class serves both; each is an instance.
- `tag.dfy` (module `Tags`) and `pull_request.dfy` (module `PullRequests`): the
  two models.

Modelling choices:

- Dates are integer timestamps, the value of `Date.getTime()`.
- `formatDate(date, pattern)` and `fromNow(date)` from system/date are not part
  of this model. They are the two functions of a `DateRenderer` parameter.
- `sortCompare` from system/string is the parameter `compare`. Sorting requires
  it to be total: of any two strings, one may precede the other. The pairwise
  lemma also assumes it is transitive.
- The settings (`sortTagsBy`, `defaultDateFormat`, `defaultDateStyle`) are
  passed in as arguments. The editor's colour-theme kind is a parameter.
- `dateStyle` is `None` until the first `reset`, like the source's
  `undefined!`. Formatting is then relative, since the style is not
  `Absolute`.
- An options object's `orderBy` property has three states: absent, present
  but `undefined`, or present with a value. The spread
  `{ orderBy: configured, ...options }` lets a present-but-`undefined`
  property override the setting. The `switch` then falls through to DateDesc.
  The model keeps this behaviour.
- `Array.prototype.sort` is modelled by an insertion sort on the array. The
  contract is what the result must satisfy: each pair of neighbours is in the
  comparator's order, the contents are a permutation of the input, and
  neighbours the comparator ties keep their original relative order.

## Model

| member | source | states |
|---|---|---|
| `DateFormat.Pattern` | src/git/models/tag.ts:79 | `format ?? 'MMMM Do, YYYY h:mma'`: the default pattern for a null or absent format, the format itself otherwise (also pullRequest.ts lines 85, 95, 106, 116 and tag.ts line 70) |
| `DateFormat.MemoKey` | src/git/models/tag.ts:77 | The memoize key `format == null ? 'MMMM Do, YYYY h:mma' : format` always equals the pattern the accessor renders with (the same key appears at tag.ts line 68 and pullRequest.ts lines 83, 92, 103, 114) |
| `DateFormat.DateFormatting.UsesAbsolute` | src/git/models/tag.ts:59 | `dateStyle === DateStyle.Absolute`: true exactly for the Absolute style, and false before any reset (also pullRequest.ts line 78) |
| `DateFormat.MemoKeyDeterminesPattern` | src/git/models/tag.ts:68-80 | The memoize key and the `??` fallback, written separately, agree: two formats share a key exactly when they render with the same pattern, and a null format renders like the default pattern |
| `DateFormat.DateFormatting.constructor` | src/git/models/tag.ts:7-10 | Before any reset both fields are `undefined` (modelled as None): no pattern and no style |
| `DateFormat.DateFormatting.Reset` | src/git/models/tag.ts:11-14 | After reset the pattern and the style are the configured ones, and formatting is absolute exactly when the configured style is Absolute (pullRequest.ts lines 8-16 define the identical object) |
| `Tags.Ref` | src/git/models/tag.ts:64-66 | The `ref` getter is the tag's name |
| `Tags.IsOfRefType` | src/git/models/tag.ts:27-29 | True exactly when the reference is present and its discriminator is "tag" |
| `Tags.TagsAreOfRefType` | src/git/models/tag.ts:47-66 | Every tag is recognised as a tag and its ref is its name; an absent reference, or one with another discriminator, is not a tag |
| `Tags.LastIndexOf` | src/git/models/tag.ts:88 | Returns -1 exactly when the character does not occur; otherwise the character is at the result and at no later index |
| `Tags.GetBasename` | src/git/models/tag.ts:86-90 | The result contains no `/`; a name without `/` is its own basename; otherwise the name is some prefix, then `/`, then the result |
| `Tags.BasenameExamples` | src/git/models/tag.ts:86-90 | `releases/v1.0` has basename `v1.0`, and so does `v1.0` |
| `Tags.FormatDate` | src/git/models/tag.ts:77-80 | Renders the tag's own date with the given pattern, or the default pattern when none or null is given |
| `Tags.FormatDateFromNow` | src/git/models/tag.ts:82-84 | Renders the tag's own date relative to now |
| `Tags.FormatCommitDate` | src/git/models/tag.ts:68-71 | "" when the commit date is unknown; otherwise the commit date with the given or default pattern |
| `Tags.FormatCommitDateFromNow` | src/git/models/tag.ts:73-75 | "" when the commit date is unknown; otherwise the commit date relative to now |
| `Tags.FormattedDate` | src/git/models/tag.ts:58-62 | Absolute with the global pattern (default when null) exactly when the global style is Absolute; relative otherwise, also before any reset |
| `Tags.ResetThenRead` | src/git/models/tag.ts:58-62 | After `TagDateFormatting.reset` with a configured pattern and style, the next `formattedDate` of an existing tag is absolute in that pattern (default when null) for Absolute, relative for Relative |
| `Tags.MemoizedFormatsAreSound` | src/git/models/tag.ts:68-80 | Formats with equal memoization keys give equal results, and the date accessor does not depend on the commit date |
| `Tags.MergedOrderBy` | src/git/models/tag.ts:31-32 | The configured order applies when there are no options or no `orderBy` property; a present `orderBy` wins, even when it is `undefined` |
| `Tags.ConfiguredOrderOnlyWhenAbsent` | src/git/models/tag.ts:32 | The configured order changes the outcome exactly when the caller gave no `orderBy` property |
| `Tags.Comparator` | src/git/models/tag.ts:34-43 | The comparator the `switch` picks: under DateAsc it is non-positive exactly when the first date is not later, and zero exactly for equal dates; under NameAsc it is `sortCompare(a.name, b.name)`; under NameDesc `sortCompare(b.name, a.name)`; under DateDesc, an unrecognised or an undefined order, it is non-positive exactly when the first date is not earlier |
| `Tags.SortInPlace` | src/git/models/tag.ts:34-44 | After sorting, every two neighbours are in the order of the chosen comparator and the array holds the same multiset of tags. A ghost index map records where each element came from, and neighbours the comparator ties keep their original relative order (stability, as `Array.prototype.sort` guarantees) |
| `Tags.Sort` | src/git/models/tag.ts:31-45 | Returns the array it was given, as a permutation of its old contents. Under DateAsc dates do not decrease; under NameAsc neighbours satisfy `compare(a, b) <= 0`; under NameDesc `compare(b, a) <= 0`; under DateDesc, an unrecognised order or an undefined one, dates do not increase. Neighbours the comparator ties keep their original relative order |
| `Tags.SortedMeaning` | src/git/models/tag.ts:34-44 | For each order, what "neighbours in comparator order" means in terms of dates or `sortCompare` on names |
| `Tags.InOrderTransitive` | src/git/models/tag.ts:34-44 | Each comparator's "may precede" relation is transitive when the string comparator is |
| `Tags.SortedIsPairwise` | src/git/models/tag.ts:34-44 | With a transitive comparator, a result whose neighbours are in order has every earlier tag in order with every later one |
| `Tags.TwoTagsByDate` | src/git/models/tag.ts:34-44 | Two tags of different dates have a single sorted arrangement: older first under DateAsc, newer first under DateDesc and every order that falls through to it |
| `PullRequests.EffectiveDate` | src/git/models/pullRequest.ts:84-90 | The merged date if present, else the closed date if present, else the base date, whatever their relative order |
| `PullRequests.FormatDate` | src/git/models/pullRequest.ts:83-86 | Renders the merged date if there is one, else the closed date if there is one, else the base date, with the given or default pattern |
| `PullRequests.FormatDateFromNow` | src/git/models/pullRequest.ts:88-90 | Renders the merged date if there is one, else the closed date if there is one, else the base date, relative to now |
| `PullRequests.FormatClosedDate` | src/git/models/pullRequest.ts:92-96 | "" when there is no closed date; otherwise the closed date with the given or default pattern |
| `PullRequests.FormatClosedDateFromNow` | src/git/models/pullRequest.ts:98-101 | "" when there is no closed date; otherwise the closed date relative to now |
| `PullRequests.FormatMergedDate` | src/git/models/pullRequest.ts:103-107 | "" when there is no merged date; otherwise the merged date with the given or default pattern |
| `PullRequests.FormatMergedDateFromNow` | src/git/models/pullRequest.ts:109-112 | "" when there is no merged date; otherwise the merged date relative to now |
| `PullRequests.FormatUpdatedDate` | src/git/models/pullRequest.ts:114-117 | Always the base date, with the given or default pattern: what `formatDate` shows for the same pull request with no closed or merged date |
| `PullRequests.FormatUpdatedDateFromNow` | src/git/models/pullRequest.ts:119-121 | Always the base date, relative to now: what `formatDateFromNow` shows for the same pull request with no closed or merged date |
| `PullRequests.FormattedDate` | src/git/models/pullRequest.ts:77-81 | The effective date, absolute with the global pattern (default when null) exactly when the global style is Absolute, relative otherwise |
| `PullRequests.ResetThenRead` | src/git/models/pullRequest.ts:77-81 | After `PullRequestDateFormatting.reset` with a configured pattern and style, the next `formattedDate` of an existing pull request renders its effective date, absolute in that pattern (default when null) for Absolute, relative for Relative |
| `PullRequests.FinalDateAccessors` | src/git/models/pullRequest.ts:83-112 | A merged pull request shows its merged date, a closed unmerged one its closed date, and one with neither shows its base date with empty closed and merged dates |
| `PullRequests.UpdatedDateIgnoresLifecycle` | src/git/models/pullRequest.ts:114-121 | Changing the closed or merged date never changes the updated-date accessors |
| `PullRequests.MemoizedFormatsAreSound` | src/git/models/pullRequest.ts:83-117 | For each memoized accessor, formats with equal keys give equal results |
| `PullRequests.GetThemeIcon` | src/git/models/pullRequest.ts:48-59 | Open gives `git-pull-request` with the open colour, Closed `git-pull-request-closed` with the closed colour, Merged `git-merge` with the merged colour; any other state gives `git-pull-request` with no colour |
| `PullRequests.GetMarkdownIcon` | src/git/models/pullRequest.ts:29-46 | The bare `$(git-pull-request)` is returned exactly for an unrecognised state |
| `PullRequests.ColoredSpan` | src/git/models/pullRequest.ts:32-42 | The markdown template `<span style="color:…;">…</span>`: the colour at a fixed offset after the opening text, then the glyph, then the closing tag |
| `PullRequests.Palette` | src/git/models/pullRequest.ts:33-41 | Each colour token's hex colour is a `#` and six digits, from #3fb950/#f85149/#a371f7 exactly for the dark theme and from #1a7f37/#cf222e/#8250df for any other |
| `PullRequests.MarkdownIconRendersThemeIcon` | src/git/models/pullRequest.ts:29-59 | The markdown icon is the themed icon's glyph, in a span coloured #3fb950/#1a7f37 (open), #f85149/#cf222e (closed) or #a371f7/#8250df (merged) for a dark or any other theme; it is the bare glyph when the themed icon has no colour |
| `PullRequests.IconsAreDistinct` | src/git/models/pullRequest.ts:29-59 | Two different states, at least one of them recognised, get different themed icons and different markdown icons |

## Left out

- `GitTag.is` and `PullRequest.is` are runtime `instanceof` checks with nothing to state.
- The memoization cache itself is not modelled. Only its consequence is: a result depends on the format only through the cache key.
- The rendering of dates (`formatDate`, `fromNow`) depends on the clock and the locale; it is a parameter.
- The configuration store, the editor's theme API and the `ThemeIcon`/`ThemeColor` objects are outside this model. Icons are plain values with a colour token.
- The provider, author, title and url of a pull request are opaque data that no operation here reads.
- The `current` sort option plays no part in `GitTag.sort`. It is carried but unused.
- `formatMergedDate` and `formatUpdatedDate` end in `?? ''`. That is a no-op, because the renderer always returns a string.
- JavaScript dates are doubles and may be invalid (`NaN`). Here they are integers, so the comparator's subtraction is exact and always defined.
- `Array.prototype.sort` itself (a merge sort in V8) is not modelled; an insertion sort with the same contract (sorted, a permutation, stable) stands in for it.
- PullRequests.FormatClosedDate: `""` does not imply that the closed date is absent, because the renderer may itself return `""`. The same holds for the other accessors that return `""` for an absent date.
