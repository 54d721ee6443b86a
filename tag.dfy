/**
 * The tag model (`GitTag`): an immutable record of a tag, its reference
 * discriminator, its short name, its formatted dates, and the in-place sort
 * that orders a list of tags by date or by name.
 */
module Tags {
  import opened Wrappers
  import opened DateFormat

  /** A reference of any kind (branch, revision or tag), as seen by `isOfRefType`. */
  datatype GitReference = GitReference(refType: string, repoPath: string, name: string, ref: string)

  /** A tag; `date` is the tag's own date and `commitDate` that of the tagged commit, if known. */
  datatype GitTag = GitTag(
    repoPath: string,
    name: string,
    sha: string,
    message: string,
    date: int,
    commitDate: Option<int>)
  {
    /** The constant discriminator every tag carries. */
    const refType: string := "tag"
  }

  /** `get ref()`: tags are referenced by name. */
  function Ref(tag: GitTag): (r: string)
    ensures r == tag.name
  {
    tag.name
  }

  /** A tag seen through the reference interface it implements. */
  function AsReference(tag: GitTag): GitReference {
    GitReference(tag.refType, tag.repoPath, tag.name, Ref(tag))
  }

  /** `tag?.refType === 'tag'`: an absent reference is not a tag. */
  function IsOfRefType(ref: Option<GitReference>): (b: bool)
    ensures b <==> ref.Some? && ref.value.refType == "tag"
  {
    match ref
    case None => false
    case Some(r) => r.refType == "tag"
  }

  /** Every tag is recognised as a tag and is referenced by its name; nothing absent is. */
  lemma TagsAreOfRefType(tag: GitTag, other: GitReference)
    ensures IsOfRefType(Some(AsReference(tag)))
    ensures AsReference(tag).ref == tag.name
    ensures !IsOfRefType(None)
    ensures other.refType != "tag" ==> !IsOfRefType(Some(other))
  {
  }

  // ---------------------------------------------------------------------------
  // Short name

  /** `s.lastIndexOf(c)`: the index of the last `c` in `s`, or -1 when there is none. */
  function LastIndexOf(s: string, c: char): (i: int)
    ensures -1 <= i < |s|
    ensures i == -1 <==> c !in s
    ensures 0 <= i ==> s[i] == c
    ensures forall k :: i < k < |s| ==> s[k] != c
  {
    if |s| == 0 then -1
    else if s[|s| - 1] == c then |s| - 1
    else LastIndexOf(s[..|s| - 1], c)
  }

  /**
   * `getBasename()`: the part of the name after the last `/`, or the whole name
   * when it has none.
   */
  function GetBasename(tag: GitTag): (b: string)
    ensures '/' !in b
    ensures '/' !in tag.name ==> b == tag.name
    ensures '/' in tag.name ==>
      |b| < |tag.name| && tag.name == tag.name[..|tag.name| - |b| - 1] + "/" + b
  {
    var index := LastIndexOf(tag.name, '/');
    if index != -1 then
      assert tag.name == tag.name[..index] + "/" + tag.name[index + 1..];
      tag.name[index + 1..]
    else tag.name
  }

  /** A tag under a folder-like prefix shows its last segment; a plain tag shows its name. */
  lemma BasenameExamples(repoPath: string, sha: string, message: string, date: int)
    ensures GetBasename(GitTag(repoPath, "releases/v1.0", sha, message, date, None)) == "v1.0"
    ensures GetBasename(GitTag(repoPath, "v1.0", sha, message, date, None)) == "v1.0"
  {
  }

  // ---------------------------------------------------------------------------
  // Dates

  /** `formatDate(format)`: the tag's date in the given pattern, the default one when null. */
  function FormatDate(tag: GitTag, format: Option<string>, renderer: DateRenderer): (s: string)
    ensures s == renderer.absolute(tag.date, if format.Some? then format.value else DefaultPattern)
  {
    renderer.absolute(tag.date, Pattern(format))
  }

  /** `formatDateFromNow()`: the tag's date relative to now. */
  function FormatDateFromNow(tag: GitTag, renderer: DateRenderer): (s: string)
    ensures s == renderer.relative(tag.date)
  {
    renderer.relative(tag.date)
  }

  /** `formatCommitDate(format)`: the commit date in the given pattern, or "" when it is unknown. */
  function FormatCommitDate(tag: GitTag, format: Option<string>, renderer: DateRenderer): (s: string)
    ensures tag.commitDate.None? ==> s == ""
    ensures tag.commitDate.Some? ==>
      s == renderer.absolute(tag.commitDate.value, if format.Some? then format.value else DefaultPattern)
  {
    match tag.commitDate
    case Some(d) => renderer.absolute(d, Pattern(format))
    case None => ""
  }

  /** `formatCommitDateFromNow()`: the commit date relative to now, or "" when it is unknown. */
  function FormatCommitDateFromNow(tag: GitTag, renderer: DateRenderer): (s: string)
    ensures tag.commitDate.None? ==> s == ""
    ensures tag.commitDate.Some? ==> s == renderer.relative(tag.commitDate.value)
  {
    match tag.commitDate
    case Some(d) => renderer.relative(d)
    case None => ""
  }

  /**
   * `formattedDate`: absolute, in the configured pattern, exactly when the
   * process-wide style is Absolute; relative otherwise, also before any reset.
   */
  function FormattedDate(tag: GitTag, settings: DateFormatting, renderer: DateRenderer): (s: string)
    reads settings
    ensures settings.dateStyle == Some(Absolute) ==>
      s == renderer.absolute(tag.date, Pattern(settings.dateFormat))
    ensures settings.dateStyle != Some(Absolute) ==> s == renderer.relative(tag.date)
  {
    if settings.UsesAbsolute() then FormatDate(tag, settings.dateFormat, renderer)
    else FormatDateFromNow(tag, renderer)
  }

  /**
   * A settings change followed by a read: once the settings object has been
   * reset, `formattedDate` on an existing tag follows the new settings.
   */
  method ResetThenRead(settings: DateFormatting, tag: GitTag, cfgFormat: Option<string>, cfgStyle: DateStyle,
                       renderer: DateRenderer)
    returns (s: string)
    modifies settings
    ensures settings.dateFormat == cfgFormat && settings.dateStyle == Some(cfgStyle)
    ensures cfgStyle == Absolute ==> s == renderer.absolute(tag.date, Pattern(cfgFormat))
    ensures cfgStyle == Relative ==> s == renderer.relative(tag.date)
  {
    settings.Reset(cfgFormat, cfgStyle);
    s := FormattedDate(tag, settings, renderer);
  }

  /**
   * The memoized accessors may serve a cached result for any format with the same
   * key: the result depends on the format only through its key, and the date
   * accessor ignores the commit date.
   */
  lemma MemoizedFormatsAreSound(tag: GitTag, f1: Option<string>, f2: Option<string>, renderer: DateRenderer)
    requires MemoKey(f1) == MemoKey(f2)
    ensures FormatDate(tag, f1, renderer) == FormatDate(tag, f2, renderer)
    ensures FormatCommitDate(tag, f1, renderer) == FormatCommitDate(tag, f2, renderer)
    ensures FormatDate(tag, f1, renderer) == FormatDate(tag.(commitDate := None), f1, renderer)
  {
    MemoKeyDeterminesPattern(f1, f2);
  }

  // ---------------------------------------------------------------------------
  // Sorting

  /** The `sortTagsBy` setting; `Unrecognized` stands for any other value it may hold. */
  datatype TagSorting = DateAsc | DateDesc | NameAsc | NameDesc | Unrecognized

  /**
   * A property of a JavaScript options object: left out, present with the value
   * `undefined`, or present with a value.
   */
  datatype Property<T> = Absent | Undefined | Present(value: T)

  /** `TagSortOptions`; `current` plays no part in sorting. */
  datatype TagSortOptions = TagSortOptions(current: Property<bool>, orderBy: Property<TagSorting>)

  /**
   * `{ orderBy: configuration.get('sortTagsBy'), ...options }.orderBy`: the caller's
   * `orderBy` wins whenever the property is there, even when it holds `undefined`.
   */
  function MergedOrderBy(options: Option<TagSortOptions>, configured: TagSorting): (orderBy: Option<TagSorting>)
    ensures options.None? ==> orderBy == Some(configured)
    ensures options.Some? && options.value.orderBy.Absent? ==> orderBy == Some(configured)
    ensures options.Some? && options.value.orderBy.Present? ==> orderBy == Some(options.value.orderBy.value)
    ensures options.Some? && options.value.orderBy.Undefined? ==> orderBy == None
  {
    match options
    case None => Some(configured)
    case Some(o) =>
      match o.orderBy
      case Absent => Some(configured)
      case Undefined => None
      case Present(v) => Some(v)
  }

  /** The configured order is consulted only when the caller gave no `orderBy` property. */
  lemma ConfiguredOrderOnlyWhenAbsent(options: Option<TagSortOptions>, c1: TagSorting, c2: TagSorting)
    ensures MergedOrderBy(options, c1) != MergedOrderBy(options, c2) <==>
      c1 != c2 && (options.None? || options.value.orderBy.Absent?)
  {
  }

  /**
   * The comparator the `switch` hands to `Array.prototype.sort`; `sortCompare`
   * is the parameter `compare`. Unrecognised and undefined orders fall through
   * to DateDesc.
   */
  function Comparator(orderBy: Option<TagSorting>, compare: (string, string) -> int, x: GitTag, y: GitTag): (c: int)
    ensures orderBy == Some(DateAsc) ==> (c <= 0 <==> x.date <= y.date) && (c == 0 <==> x.date == y.date)
    ensures orderBy == Some(NameAsc) ==> c == compare(x.name, y.name)
    ensures orderBy == Some(NameDesc) ==> c == compare(y.name, x.name)
    ensures orderBy in {None, Some(DateDesc), Some(Unrecognized)} ==>
      (c <= 0 <==> x.date >= y.date) && (c == 0 <==> x.date == y.date)
  {
    match orderBy
    case Some(DateAsc) => x.date - y.date
    case Some(NameAsc) => compare(x.name, y.name)
    case Some(NameDesc) => compare(y.name, x.name)
    case _ => y.date - x.date
  }

  /** `x` may stand before `y` in a sorted result. */
  predicate InOrder(orderBy: Option<TagSorting>, compare: (string, string) -> int, x: GitTag, y: GitTag) {
    Comparator(orderBy, compare, x, y) <= 0
  }

  /** Every two neighbours are in order. */
  predicate Sorted(s: seq<GitTag>, orderBy: Option<TagSorting>, compare: (string, string) -> int) {
    forall k :: 0 < k < |s| ==> InOrder(orderBy, compare, s[k - 1], s[k])
  }

  /** A consistent string comparator: of any two strings, one may precede the other. */
  ghost predicate TotalCompare(compare: (string, string) -> int) {
    forall a, b :: compare(a, b) <= 0 || compare(b, a) <= 0
  }

  /** A comparator whose "may precede" relation is transitive. */
  ghost predicate TransitiveCompare(compare: (string, string) -> int) {
    forall a, b, c :: compare(a, b) <= 0 && compare(b, c) <= 0 ==> compare(a, c) <= 0
  }

  /** Exchanges two elements of the array. */
  method Swap(a: array<GitTag>, i: nat, j: nat)
    requires i < a.Length && j < a.Length
    modifies a
    ensures a[i] == old(a[j]) && a[j] == old(a[i])
    ensures a[..] == old(a[..])[i := old(a[j])][j := old(a[i])]
    ensures multiset(a[..]) == multiset(old(a[..]))
  {
    a[i], a[j] := a[j], a[i];
  }

  /**
   * `perm` says where each element came from: position `k` of `s` holds the
   * element that stood at position `perm[k]` of `t`, and no position of `t` is
   * used twice.
   */
  ghost predicate Rearranges(perm: seq<nat>, s: seq<GitTag>, t: seq<GitTag>) {
    && |perm| == |s| == |t|
    && (forall k :: 0 <= k < |s| ==> perm[k] < |t| && s[k] == t[perm[k]])
    && (forall p, q :: 0 <= p < q < |perm| ==> perm[p] != perm[q])
  }

  /**
   * Neighbours that the comparator ties (each may precede the other) kept the
   * relative order they had before sorting.
   */
  ghost predicate StableTies(s: seq<GitTag>, perm: seq<nat>, orderBy: Option<TagSorting>,
                             compare: (string, string) -> int) {
    |perm| == |s| &&
    forall k :: 0 < k < |s| && InOrder(orderBy, compare, s[k], s[k - 1]) ==> perm[k - 1] < perm[k]
  }

  /** What insertion sort has achieved once the first `i` elements are done. */
  ghost predicate SortedUpTo(s: seq<GitTag>, perm: seq<nat>, orig: seq<GitTag>, i: nat,
                             orderBy: Option<TagSorting>, compare: (string, string) -> int) {
    && i <= |s|
    && Rearranges(perm, s, orig)
    && (forall k :: 0 < k < i ==> InOrder(orderBy, compare, s[k - 1], s[k]))
    && (forall k :: i <= k < |s| ==> perm[k] == k)
    && (forall k :: 0 <= k < i ==> perm[k] < i)
    && (forall k :: 0 < k < i && InOrder(orderBy, compare, s[k], s[k - 1]) ==> perm[k - 1] < perm[k])
  }

  /**
   * While the element that started at `i` moves left: it stands at `j`, the
   * elements around it are in order, and it has passed only neighbours that
   * must follow it.
   */
  ghost predicate Inserting(s: seq<GitTag>, perm: seq<nat>, orig: seq<GitTag>, i: nat, j: nat,
                            orderBy: Option<TagSorting>, compare: (string, string) -> int) {
    && j <= i < |s|
    && Rearranges(perm, s, orig)
    && (forall k :: 0 < k < j ==> InOrder(orderBy, compare, s[k - 1], s[k]))
    && (forall k :: j < k <= i ==> InOrder(orderBy, compare, s[k - 1], s[k]))
    && (0 < j < i ==> InOrder(orderBy, compare, s[j - 1], s[j + 1]))
    && (forall k :: i < k < |s| ==> perm[k] == k)
    && perm[j] == i
    && (forall k :: 0 <= k <= i && k != j ==> perm[k] < i)
    && (forall k :: 0 < k <= i && k != j && InOrder(orderBy, compare, s[k], s[k - 1]) ==> perm[k - 1] < perm[k])
    && (j < i ==> !InOrder(orderBy, compare, s[j + 1], s[j]))
    && (0 < j < i && InOrder(orderBy, compare, s[j + 1], s[j - 1]) ==> perm[j - 1] < perm[j + 1])
  }

  lemma StartInserting(s: seq<GitTag>, perm: seq<nat>, orig: seq<GitTag>, i: nat,
                       orderBy: Option<TagSorting>, compare: (string, string) -> int)
    requires SortedUpTo(s, perm, orig, i, orderBy, compare) && i < |s|
    ensures Inserting(s, perm, orig, i, i, orderBy, compare)
  {
  }

  /** Exchanging two neighbours of a rearrangement, and their origins, gives a rearrangement. */
  lemma SwapRearranges(perm: seq<nat>, s: seq<GitTag>, t: seq<GitTag>, j: nat)
    requires Rearranges(perm, s, t) && 0 < j < |s|
    ensures Rearranges(perm[j - 1 := perm[j]][j := perm[j - 1]], s[j - 1 := s[j]][j := s[j - 1]], t)
  {
  }

  /** Moving past a neighbour that must follow keeps the neighbours around it in order. */
  lemma SwapKeepsOrder(s: seq<GitTag>, i: nat, j: nat, orderBy: Option<TagSorting>, compare: (string, string) -> int)
    requires TotalCompare(compare)
    requires 0 < j <= i < |s|
    requires forall k :: 0 < k < j ==> InOrder(orderBy, compare, s[k - 1], s[k])
    requires forall k :: j < k <= i ==> InOrder(orderBy, compare, s[k - 1], s[k])
    requires 0 < j < i ==> InOrder(orderBy, compare, s[j - 1], s[j + 1])
    requires !InOrder(orderBy, compare, s[j - 1], s[j])
    ensures var s' := s[j - 1 := s[j]][j := s[j - 1]];
      && (forall k :: 0 < k < j - 1 ==> InOrder(orderBy, compare, s'[k - 1], s'[k]))
      && (forall k :: j - 1 < k <= i ==> InOrder(orderBy, compare, s'[k - 1], s'[k]))
      && (0 < j - 1 < i ==> InOrder(orderBy, compare, s'[j - 2], s'[j]))
      && (j - 1 < i ==> !InOrder(orderBy, compare, s'[j], s'[j - 1]))
  {
  }

  /** Moving past a neighbour that must follow never reverses a tie. */
  lemma SwapKeepsTies(s: seq<GitTag>, perm: seq<nat>, i: nat, j: nat,
                      orderBy: Option<TagSorting>, compare: (string, string) -> int)
    requires 0 < j <= i < |s| == |perm|
    requires perm[j] == i
    requires forall k :: 0 <= k <= i && k != j ==> perm[k] < i
    requires forall k :: 0 < k <= i && k != j && InOrder(orderBy, compare, s[k], s[k - 1]) ==> perm[k - 1] < perm[k]
    requires 0 < j < i && InOrder(orderBy, compare, s[j + 1], s[j - 1]) ==> perm[j - 1] < perm[j + 1]
    requires !InOrder(orderBy, compare, s[j - 1], s[j])
    ensures var s', perm' := s[j - 1 := s[j]][j := s[j - 1]], perm[j - 1 := perm[j]][j := perm[j - 1]];
      && perm'[j - 1] == i
      && (forall k :: 0 <= k <= i && k != j - 1 ==> perm'[k] < i)
      && (forall k :: 0 < k <= i && k != j - 1 && InOrder(orderBy, compare, s'[k], s'[k - 1]) ==>
            perm'[k - 1] < perm'[k])
      && (0 < j - 1 < i && InOrder(orderBy, compare, s'[j], s'[j - 2]) ==> perm'[j - 2] < perm'[j])
  {
    var s', perm' := s[j - 1 := s[j]][j := s[j - 1]], perm[j - 1 := perm[j]][j := perm[j - 1]];
    forall k | 0 < k <= i && k != j - 1 && InOrder(orderBy, compare, s'[k], s'[k - 1])
      ensures perm'[k - 1] < perm'[k]
    {
      if k == j + 1 {
        assert s'[k] == s[j + 1] && s'[k - 1] == s[j - 1];
      }
    }
  }

  /** Moving past a neighbour that must follow keeps the insertion invariant. */
  lemma InsertingStep(s: seq<GitTag>, perm: seq<nat>, orig: seq<GitTag>, i: nat, j: nat,
                      orderBy: Option<TagSorting>, compare: (string, string) -> int)
    requires TotalCompare(compare)
    requires Inserting(s, perm, orig, i, j, orderBy, compare)
    requires 0 < j && !InOrder(orderBy, compare, s[j - 1], s[j])
    ensures Inserting(s[j - 1 := s[j]][j := s[j - 1]], perm[j - 1 := perm[j]][j := perm[j - 1]],
                      orig, i, j - 1, orderBy, compare)
  {
    SwapRearranges(perm, s, orig, j);
    SwapKeepsOrder(s, i, j, orderBy, compare);
    SwapKeepsTies(s, perm, i, j, orderBy, compare);
  }

  /** Stopping behind a neighbour that may precede completes one more element. */
  lemma StopInserting(s: seq<GitTag>, perm: seq<nat>, orig: seq<GitTag>, i: nat, j: nat,
                      orderBy: Option<TagSorting>, compare: (string, string) -> int)
    requires Inserting(s, perm, orig, i, j, orderBy, compare)
    requires j == 0 || InOrder(orderBy, compare, s[j - 1], s[j])
    ensures SortedUpTo(s, perm, orig, i + 1, orderBy, compare)
  {
  }

  /**
   * One step of insertion sort: the element at `i` moves left past every
   * neighbour that must follow it and stops behind the first that may precede
   * it, so it never passes a tie.
   */
  method Insert(a: array<GitTag>, i: nat, orderBy: Option<TagSorting>, compare: (string, string) -> int,
                ghost orig: seq<GitTag>, ghost perm0: seq<nat>)
    returns (ghost perm: seq<nat>)
    requires TotalCompare(compare)
    requires i < a.Length && SortedUpTo(a[..], perm0, orig, i, orderBy, compare)
    modifies a
    ensures SortedUpTo(a[..], perm, orig, i + 1, orderBy, compare)
    ensures multiset(a[..]) == multiset(old(a[..]))
  {
    perm := perm0;
    StartInserting(a[..], perm, orig, i, orderBy, compare);
    var j: nat := i;
    while 0 < j && !InOrder(orderBy, compare, a[j - 1], a[j])
      invariant Inserting(a[..], perm, orig, i, j, orderBy, compare)
      invariant multiset(a[..]) == multiset(old(a[..]))
    {
      InsertingStep(a[..], perm, orig, i, j, orderBy, compare);
      Swap(a, j - 1, j);
      perm := perm[j - 1 := perm[j]][j := perm[j - 1]];
      j := j - 1;
    }
    StopInserting(a[..], perm, orig, i, j, orderBy, compare);
  }

  /**
   * Sorts `a` in place with the comparator chosen by `orderBy`, stably, as
   * `Array.prototype.sort` does; `perm` records where each element came from.
   */
  method SortInPlace(a: array<GitTag>, orderBy: Option<TagSorting>, compare: (string, string) -> int)
    returns (ghost perm: seq<nat>)
    requires TotalCompare(compare)
    modifies a
    ensures Sorted(a[..], orderBy, compare)
    ensures multiset(a[..]) == multiset(old(a[..]))
    ensures Rearranges(perm, a[..], old(a[..]))
    ensures StableTies(a[..], perm, orderBy, compare)
  {
    ghost var orig := a[..];
    perm := seq(a.Length, k => k);
    var i := 0;
    while i < a.Length
      invariant 0 <= i <= a.Length
      invariant SortedUpTo(a[..], perm, orig, i, orderBy, compare)
      invariant multiset(a[..]) == multiset(orig)
    {
      perm := Insert(a, i, orderBy, compare, orig, perm);
      i := i + 1;
    }
  }

  /**
   * `GitTag.sort(tags, options)`: sorts the caller's array in place and returns
   * that same array, as a permutation of its former contents, ordered by the
   * merged `orderBy`; neighbours the comparator ties keep their former order.
   */
  method Sort(tags: array<GitTag>, options: Option<TagSortOptions>, configured: TagSorting,
              compare: (string, string) -> int)
    returns (r: array<GitTag>, ghost perm: seq<nat>)
    requires TotalCompare(compare)
    modifies tags
    ensures r == tags
    ensures multiset(r[..]) == multiset(old(tags[..]))
    ensures Rearranges(perm, r[..], old(tags[..]))
    ensures StableTies(r[..], perm, MergedOrderBy(options, configured), compare)
    ensures Sorted(r[..], MergedOrderBy(options, configured), compare)
    ensures MergedOrderBy(options, configured) == Some(DateAsc) ==>
      forall k :: 0 < k < r.Length ==> r[k - 1].date <= r[k].date
    ensures MergedOrderBy(options, configured) == Some(NameAsc) ==>
      forall k :: 0 < k < r.Length ==> compare(r[k - 1].name, r[k].name) <= 0
    ensures MergedOrderBy(options, configured) == Some(NameDesc) ==>
      forall k :: 0 < k < r.Length ==> compare(r[k].name, r[k - 1].name) <= 0
    ensures MergedOrderBy(options, configured) in {None, Some(DateDesc), Some(Unrecognized)} ==>
      forall k :: 0 < k < r.Length ==> r[k - 1].date >= r[k].date
  {
    var orderBy := MergedOrderBy(options, configured);
    perm := SortInPlace(tags, orderBy, compare);
    r := tags;
    SortedMeaning(r[..], orderBy, compare);
  }

  /** What "every two neighbours are in order" means for each order. */
  lemma SortedMeaning(s: seq<GitTag>, orderBy: Option<TagSorting>, compare: (string, string) -> int)
    requires Sorted(s, orderBy, compare)
    ensures orderBy == Some(DateAsc) ==> forall k :: 0 < k < |s| ==> s[k - 1].date <= s[k].date
    ensures orderBy == Some(NameAsc) ==> forall k :: 0 < k < |s| ==> compare(s[k - 1].name, s[k].name) <= 0
    ensures orderBy == Some(NameDesc) ==> forall k :: 0 < k < |s| ==> compare(s[k].name, s[k - 1].name) <= 0
    ensures orderBy in {None, Some(DateDesc), Some(Unrecognized)} ==>
      forall k :: 0 < k < |s| ==> s[k - 1].date >= s[k].date
  {
    forall k | 0 < k < |s| ensures InOrder(orderBy, compare, s[k - 1], s[k]) {}
  }

  /** "May precede" is transitive for every order once the string comparator is. */
  lemma InOrderTransitive(orderBy: Option<TagSorting>, compare: (string, string) -> int, x: GitTag, y: GitTag, z: GitTag)
    requires TransitiveCompare(compare)
    requires InOrder(orderBy, compare, x, y) && InOrder(orderBy, compare, y, z)
    ensures InOrder(orderBy, compare, x, z)
  {
  }

  /**
   * With a transitive comparator, a result whose neighbours are in order is in
   * order throughout: every earlier tag may precede every later one.
   */
  lemma {:induction false} SortedIsPairwise(s: seq<GitTag>, orderBy: Option<TagSorting>, compare: (string, string) -> int)
    requires TransitiveCompare(compare)
    requires Sorted(s, orderBy, compare)
    ensures forall i, j :: 0 <= i < j < |s| ==> InOrder(orderBy, compare, s[i], s[j])
  {
    if |s| > 1 {
      var t := s[..|s| - 1];
      assert Sorted(t, orderBy, compare) by {
        forall k | 0 < k < |t| ensures InOrder(orderBy, compare, t[k - 1], t[k]) {
          assert t[k - 1] == s[k - 1] && t[k] == s[k];
        }
      }
      SortedIsPairwise(t, orderBy, compare);
      forall i, j | 0 <= i < j < |s| ensures InOrder(orderBy, compare, s[i], s[j]) {
        if j < |s| - 1 {
          assert s[i] == t[i] && s[j] == t[j];
        } else if i < j - 1 {
          assert InOrder(orderBy, compare, t[i], t[j - 1]);
          InOrderTransitive(orderBy, compare, s[i], s[j - 1], s[j]);
        }
      }
    }
  }

  /**
   * Two tags of different dates have one sorted arrangement per date order: the
   * older first for DateAsc, the newer first for DateDesc and for every order
   * that falls through to it.
   */
  lemma TwoTagsByDate(older: GitTag, newer: GitTag, s: seq<GitTag>,
                       orderBy: Option<TagSorting>, compare: (string, string) -> int)
    requires older.date < newer.date
    requires multiset(s) == multiset([older, newer])
    requires orderBy !in {Some(NameAsc), Some(NameDesc)}
    requires Sorted(s, orderBy, compare)
    ensures orderBy == Some(DateAsc) ==> s == [older, newer]
    ensures orderBy != Some(DateAsc) ==> s == [newer, older]
  {
  }
}
