/** The compatibility badges of a product: the tags shown, at most `max` of
    them when a positive `max` is given, and the "+N more" chip. Tags are the
    raw strings stored with the product, which need not be known tags. */
module CompatibilityBadges {
  import opened Common
  import opened Types
  import opened Constants

  /** JavaScript's `xs.slice(0, end)`: a negative end counts from the end of
      the list, and an end past the list is cut to its length. */
  function SliceTo<T>(xs: seq<T>, end: int): (r: seq<T>)
    ensures end >= 0 ==> |r| == if end < |xs| then end else |xs|
    ensures end < 0 ==> |r| == if |xs| + end > 0 then |xs| + end else 0
    ensures r == xs[..|r|]
  {
    if end < 0 then (if |xs| + end > 0 then xs[..|xs| + end] else [])
    else if end < |xs| then xs[..end] else xs
  }

  /** What the component renders: the visible tags and `remaining`. */
  datatype Badges = Badges(visible: seq<string>, remaining: int)

  /** `max ? tags.slice(0, max) : tags` and `max ? tags.length - max : 0`; a
      missing `max` and `max` zero are both falsy. */
  function Layout(tags: seq<string>, max: Option<int>): Badges {
    if max.None? || max.value == 0 then Badges(tags, 0)
    else Badges(SliceTo(tags, max.value), |tags| - max.value)
  }

  /** The "+N more" chip is shown when `remaining > 0`. */
  predicate ShowsMore(b: Badges) { b.remaining > 0 }

  /** Without a limit every tag is visible and there is no chip. */
  lemma NoLimitShowsAll(tags: seq<string>, max: Option<int>)
    requires max.None? || max.value == 0
    ensures Layout(tags, max).visible == tags && !ShowsMore(Layout(tags, max))
  {
  }

  /** With a positive limit the visible tags are the first `min(max, len)` in
      order; `remaining` may be negative when there are fewer tags than the
      limit, and the chip then stays hidden; when it shows, the visible tags
      and the chip's count add up to all the tags. */
  lemma LimitedLayout(tags: seq<string>, max: int)
    requires max >= 1
    ensures var b := Layout(tags, Some(max));
      && b.visible == tags[..if max < |tags| then max else |tags|]
      && b.remaining == |tags| - max
      && (ShowsMore(b) <==> |tags| > max)
      && (ShowsMore(b) ==> |b.visible| + b.remaining == |tags|)
  {
  }

  /** The label of a badge: the known tag's label, or the raw value itself. */
  function Label(raw: string): (r: string)
    ensures ParseTag(raw).None? ==> r == raw
  {
    match ParseTag(raw)
    case Some(t) => (DisplayTablesTotal(); COMPATIBILITY_TAGS[t].labelText)
    case None => raw
  }

  /** Every known tag is shown with its table label. */
  lemma KnownTagLabel(t: CompatibilityTag)
    ensures Label(TagName(t)) == COMPATIBILITY_TAGS[t].labelText
  {
    DisplayTablesTotal();
    EnumerationsComplete();
  }
}
