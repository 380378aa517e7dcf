/** The search page's filter panel: each checkbox change hands the parent a new
    pair of lists, built by appending or by filtering, and "Clear all" hands it
    two empty lists. */
module SearchFilters {
  import opened Common

  /** The selection handed to `onFilterChange`. */
  datatype Filters = Filters(categories: seq<string>, tags: seq<string>)

  /** `handleCategoryToggle`: checking appends the category (with no check for
      a copy already there), unchecking removes every copy; the tags pass
      through untouched. */
  function CategoryToggled(f: Filters, category: string, checked: bool): (r: Filters)
    ensures r.tags == f.tags
    ensures checked ==> r.categories == f.categories + [category]
    ensures checked ==> multiset(r.categories)[category] == multiset(f.categories)[category] + 1
    ensures !checked ==> category !in r.categories && multiset(r.categories) == multiset(f.categories)[category := 0]
  {
    Filters(if checked then f.categories + [category] else Without(f.categories, category), f.tags)
  }

  /** `handleTagToggle`: the same, on the tags, with the categories untouched. */
  function TagToggled(f: Filters, tag: string, checked: bool): (r: Filters)
    ensures r.categories == f.categories
    ensures checked ==> r.tags == f.tags + [tag]
    ensures checked ==> multiset(r.tags)[tag] == multiset(f.tags)[tag] + 1
    ensures !checked ==> tag !in r.tags && multiset(r.tags) == multiset(f.tags)[tag := 0]
  {
    Filters(f.categories, if checked then f.tags + [tag] else Without(f.tags, tag))
  }

  /** `handleClearAll`. */
  function Cleared(): (r: Filters)
    ensures !HasFilters(r)
  {
    Filters([], [])
  }

  /** `hasFilters`: whether the "Clear all" button is shown. */
  predicate HasFilters(f: Filters) {
    |f.categories| > 0 || |f.tags| > 0
  }

  /** Checking then unchecking a category that was not selected gives the
      selection back, and the same holds for a tag. */
  lemma CheckThenUncheck(f: Filters, category: string, tag: string)
    ensures category !in f.categories ==> CategoryToggled(CategoryToggled(f, category, true), category, false) == f
    ensures tag !in f.tags ==> TagToggled(TagToggled(f, tag, true), tag, false) == f
  {
    if category !in f.categories {
      WithoutConcat(f.categories, [category], category);
      WithoutAbsent(f.categories, category);
      assert Without([category], category) == [];
    }
    if tag !in f.tags {
      WithoutConcat(f.tags, [tag], tag);
      WithoutAbsent(f.tags, tag);
      assert Without([tag], tag) == [];
    }
  }

  /** Checking a box always leaves something selected; unchecking the only
      selected category while no tag is selected leaves nothing, so the
      "Clear all" button disappears. */
  lemma HasFiltersAfterToggle(f: Filters, value: string)
    ensures HasFilters(CategoryToggled(f, value, true)) && HasFilters(TagToggled(f, value, true))
    ensures f.tags == [] && (forall k :: 0 <= k < |f.categories| ==> f.categories[k] == value) ==>
      !HasFilters(CategoryToggled(f, value, false))
  {
    var r := CategoryToggled(f, value, false).categories;
    assert r == [] || r[0] in r;
  }
}
