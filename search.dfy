/** The search endpoint. The `category` and `tags` query parameters are
    comma-separated lists; they become a filter expression for the search
    engine and, when the engine is unavailable, the conditions of a database
    query over published products. What the engine returns, and whether the
    database query fails, are parameters; the database's case-insensitive
    pattern match on titles is one too. */
module Search {
  import opened Common
  import opened Types
  import Strings

  // ---- Reading a comma-separated parameter ----

  /** `parts.map((x) => x.trim()).filter(Boolean)`. */
  function Clean(parts: seq<string>): (r: seq<string>)
    ensures |r| <= |parts|
    ensures forall k :: 0 <= k < |r| ==> r[k] != ""
    decreases |parts|
  {
    if parts == [] then []
    else
      var t := Strings.Trim(parts[0]);
      if t == "" then Clean(parts[1..]) else [t] + Clean(parts[1..])
  }

  /** `parts.map((x) => x.trim())`. */
  function Trims(parts: seq<string>): (r: seq<string>)
    ensures |r| == |parts| && forall k :: 0 <= k < |parts| ==> r[k] == Strings.Trim(parts[k])
  {
    seq(|parts|, k requires 0 <= k < |parts| => Strings.Trim(parts[k]))
  }

  /** `Boolean` on a string. */
  predicate NonBlank(x: string) { x != "" }

  /** Cleaning is trimming every part and then keeping the non-empty results,
      in order; so the entries are exactly the non-empty trims of the parts. */
  lemma {:induction false} CleanEntries(parts: seq<string>)
    ensures Clean(parts) == Filter(Trims(parts), NonBlank)
    ensures forall e :: e in Clean(parts) <==> e != "" && e in Trims(parts)
    decreases |parts|
  {
    if parts != [] {
      CleanEntries(parts[1..]);
      var ts := Trims(parts);
      assert ts[1..] == Trims(parts[1..]);
      assert Filter(ts, NonBlank) == (if NonBlank(ts[0]) then [ts[0]] else []) + Filter(ts[1..], NonBlank);
    }
    FilterMembers(Trims(parts), NonBlank);
  }

  /** Cleaning keeps the order of the parts: it distributes over concatenation. */
  lemma {:induction false} CleanConcat(a: seq<string>, b: seq<string>)
    ensures Clean(a + b) == Clean(a) + Clean(b)
    decreases |a|
  {
    if a == [] {
      assert a + b == b;
    } else {
      assert (a + b)[1..] == a[1..] + b;
      CleanConcat(a[1..], b);
    }
  }

  /** A character that no part contains is in no cleaned entry. */
  lemma {:induction false} CleanKeepsOut(parts: seq<string>, c: char)
    requires forall j :: 0 <= j < |parts| ==> c !in parts[j]
    ensures forall k :: 0 <= k < |Clean(parts)| ==> c !in Clean(parts)[k]
    decreases |parts|
  {
    if parts != [] {
      Strings.TrimKeepsOut(parts[0], c);
      CleanKeepsOut(parts[1..], c);
    }
  }

  /** `s.split(",").map((x) => x.trim()).filter(Boolean)`: the non-blank
      entries, trimmed, in order; none contains a comma. */
  function SplitTrimmed(s: string): seq<string> {
    Clean(Strings.Split(s, ','))
  }

  /** The entries are non-blank and hold no comma; an empty parameter has none. */
  lemma SplitTrimmedEntries(s: string)
    ensures forall k :: 0 <= k < |SplitTrimmed(s)| ==> SplitTrimmed(s)[k] != "" && ',' !in SplitTrimmed(s)[k]
    ensures s == "" ==> SplitTrimmed(s) == []
  {
    CleanKeepsOut(Strings.Split(s, ','), ',');
    if s == "" {
      assert Strings.Split(s, ',') == [""];
      assert Strings.Trim("") == "";
    }
  }

  /** Entries that are already clean are kept as they are. */
  lemma {:induction false} CleanOfClean(xs: seq<string>)
    requires forall k :: 0 <= k < |xs| ==>
      xs[k] != "" && !Strings.IsWhitespace(xs[k][0]) && !Strings.IsWhitespace(xs[k][|xs[k]| - 1])
    ensures Clean(xs) == xs
    decreases |xs|
  {
    if xs != [] {
      CleanOfClean(xs[1..]);
      assert Strings.TrimStart(xs[0]) == xs[0];
      assert Strings.Trim(xs[0]) == xs[0];
    }
  }

  /** A list of non-blank values without commas or surrounding whitespace,
      sent as one comma-separated parameter, is read back as the same list. */
  lemma SplitTrimmedOfJoin(xs: seq<string>)
    requires xs != []
    requires forall k :: 0 <= k < |xs| ==> xs[k] != "" && ',' !in xs[k]
    requires forall k :: 0 <= k < |xs| ==> !Strings.IsWhitespace(xs[k][0]) && !Strings.IsWhitespace(xs[k][|xs[k]| - 1])
    ensures SplitTrimmed(Strings.Join(xs, ",")) == xs
  {
    Strings.SplitJoin(xs, ',');
    CleanOfClean(xs);
  }

  // ---- The search-engine filter expression ----

  function CategoryClause(c: string): string { "category = \"" + c + "\"" }
  function TagClause(t: string): string { "compatibility_tags = \"" + t + "\"" }

  /** The category part of the filter: nothing for no categories, one equality
      for one, a parenthesised disjunction of equalities for several. */
  function CategoryFilters(cats: seq<string>): (r: seq<string>)
    ensures |r| == (if cats == [] then 0 else 1)
    ensures |cats| == 1 ==> r == [CategoryClause(cats[0])]
    ensures |cats| > 1 ==> r == [AnyOf(cats)]
  {
    if |cats| == 1 then [CategoryClause(cats[0])]
    else if |cats| > 1 then [AnyOf(cats)]
    else []
  }

  /** One equality clause per category, in order. */
  function CategoryClauses(cats: seq<string>): (r: seq<string>)
    ensures |r| == |cats| && forall k :: 0 <= k < |cats| ==> r[k] == CategoryClause(cats[k])
  {
    seq(|cats|, k requires 0 <= k < |cats| => CategoryClause(cats[k]))
  }

  /** The parenthesised disjunction of one equality per category: in
      parentheses, the clause of a single category alone, those of two
      categories with " OR " between them. */
  function AnyOf(cats: seq<string>): (r: string)
    ensures |r| >= 2 && r[0] == '(' && r[|r| - 1] == ')'
    ensures |cats| == 1 ==> r == "(" + CategoryClause(cats[0]) + ")"
    ensures |cats| == 2 ==> r == "(" + CategoryClause(cats[0]) + " OR " + CategoryClause(cats[1]) + ")"
  {
    var clauses := CategoryClauses(cats);
    var j := Strings.Join(clauses, " OR ");
    assert |cats| == 2 ==> j == clauses[0] + " OR " + clauses[1] by {
      if |cats| == 2 {
        Strings.JoinPair(clauses, " OR ");
      }
    }
    assert ("(" + j + ")")[0] == '(' && ("(" + j + ")")[|j| + 1] == ')';
    "(" + j + ")"
  }

  /** One more category adds " OR " and its clause inside the parentheses. */
  lemma AnyOfSnoc(cats: seq<string>, c: string)
    requires cats != []
    ensures var a := AnyOf(cats);
      AnyOf(cats + [c]) == a[..|a| - 1] + " OR " + CategoryClause(c) + ")"
  {
    var clauses := CategoryClauses(cats);
    assert CategoryClauses(cats + [c]) == clauses + [CategoryClause(c)];
    Strings.JoinSnoc(clauses, CategoryClause(c), " OR ");
    var j := Strings.Join(clauses, " OR ");
    assert AnyOf(cats)[..|AnyOf(cats)| - 1] == "(" + j;
  }

  /** One equality clause per tag, in order. */
  function TagFilters(tags: seq<string>): (r: seq<string>)
    ensures |r| == |tags| && forall k :: 0 <= k < |tags| ==> r[k] == TagClause(tags[k])
  {
    if tags == [] then [] else TagFilters(tags[..|tags| - 1]) + [TagClause(tags[|tags| - 1])]
  }

  /** The `filters` list of `GET`, built as the handler builds it: the category
      clause (if any), then the tag clauses. */
  method BuildFilters(category: string, tags: string) returns (filters: seq<string>)
    ensures filters == CategoryFilters(SplitTrimmed(category)) + TagFilters(SplitTrimmed(tags))
  {
    filters := AddCategoryClause([], category);
    assert filters == CategoryFilters(SplitTrimmed(category));
    filters := AddTagClauses(filters, tags);
  }

  /** The `category` step: the category clause, if the parameter is non-empty. */
  method AddCategoryClause(filters0: seq<string>, category: string) returns (filters: seq<string>)
    ensures filters == filters0 + CategoryFilters(SplitTrimmed(category))
  {
    filters := filters0;
    if category != "" {
      filters := filters + CategoryFilters(SplitTrimmed(category));
    } else {
      SplitTrimmedEntries(category);
      assert filters0 + [] == filters0;
    }
  }

  /** The `tags` step: the tag clauses, if the parameter is non-empty. */
  method AddTagClauses(filters0: seq<string>, tags: string) returns (filters: seq<string>)
    ensures filters == filters0 + TagFilters(SplitTrimmed(tags))
  {
    filters := filters0;
    if tags != "" {
      filters := PushTagClauses(filters, SplitTrimmed(tags));
    } else {
      SplitTrimmedEntries(tags);
      assert filters0 + [] == filters0;
    }
  }

  /** `for (const tag of tagList) filters.push(...)`: one clause per tag,
      appended in order. */
  method PushTagClauses(filters0: seq<string>, tagList: seq<string>) returns (filters: seq<string>)
    ensures filters == filters0 + TagFilters(tagList)
  {
    filters := filters0;
    for i := 0 to |tagList|
      invariant filters == filters0 + TagFilters(tagList[..i])
    {
      assert tagList[..i + 1][..i] == tagList[..i];
      filters := filters + [TagClause(tagList[i])];
    }
    assert tagList[..|tagList|] == tagList;
  }

  /** The `filter` option sent to the engine: the clauses joined by " AND ", or
      no filter at all when there are none. */
  function FilterParam(filters: seq<string>): (r: Option<string>)
    ensures r.None? <==> filters == []
    ensures |filters| == 1 ==> r == Some(filters[0])
    ensures |filters| == 2 ==> r == Some(filters[0] + " AND " + filters[1])
  {
    assert |filters| == 2 ==> Strings.Join(filters, " AND ") == filters[0] + " AND " + filters[1] by {
      if |filters| == 2 {
        Strings.JoinPair(filters, " AND ");
      }
    }
    if |filters| > 0 then Some(Strings.Join(filters, " AND ")) else None
  }

  /** Each further clause is appended to the filter after " AND ". */
  lemma FilterParamSnoc(filters: seq<string>, clause: string)
    requires filters != []
    ensures FilterParam(filters + [clause]) == Some(FilterParam(filters).value + " AND " + clause)
  {
    Strings.JoinSnoc(filters, clause, " AND ");
  }

  /** The layout of the filter list: at most one category clause, first, then
      exactly one clause per tag in the order the tags were given. */
  lemma FilterLayout(cats: seq<string>, tagList: seq<string>)
    ensures var f := CategoryFilters(cats) + TagFilters(tagList);
      var n := if cats == [] then 0 else 1;
      && |f| == n + |tagList|
      && (|cats| == 1 ==> f[0] == CategoryClause(cats[0]))
      && (forall k :: 0 <= k < |tagList| ==> f[n + k] == TagClause(tagList[k]))
  {
    var c, t := CategoryFilters(cats), TagFilters(tagList);
    var n := if cats == [] then 0 else 1;
    assert |c| == n;
    forall k | 0 <= k < |tagList|
      ensures (c + t)[n + k] == TagClause(tagList[k])
    {
      assert (c + t)[n + k] == t[k];
    }
  }

  /** Values are placed between quotes without escaping: a single tag value
      holding a quote can stand for two tag clauses. */
  lemma {:induction false} QuotesAreNotEscaped(a: string, b: string)
    ensures FilterParam(TagFilters([a + "\" AND compatibility_tags = \"" + b]))
         == FilterParam(TagFilters([a, b]))
  {
    var open, close, and := "compatibility_tags = \"", "\"", " AND ";
    assert "\" AND compatibility_tags = \"" == close + and + open;
    var two := TagFilters([a, b]);
    assert two == [TagClause(a), TagClause(b)];
    assert two[1..] == [TagClause(b)];
    assert Strings.Join(two, and) == TagClause(a) + and + TagClause(b);
    JoinQuoted(open, close, and, a, b);
  }

  /** Re-bracketing the concatenation that shows the two clauses. */
  lemma JoinQuoted(open: string, close: string, and: string, a: string, b: string)
    ensures open + (a + (close + and + open) + b) + close == (open + a + close) + and + (open + b + close)
  {
  }

  // ---- The database fallback ----

  /** The category condition of the fallback query. */
  datatype CategoryCond = AnyCategory | CategoryEq(c: string) | CategoryIn(cs: seq<string>)

  /** The fallback query: published products, newest first, at most `limit`,
      an optional title pattern, a category condition and an optional list of
      tags every product must carry. */
  datatype FallbackQuery = FallbackQuery(
    limit: nat,
    titlePattern: Option<string>,
    category: CategoryCond,
    tagsContain: Option<seq<string>>)

  /** `eq` for one category, `in` for several, no condition for none. */
  function CategoryCondFor(cats: seq<string>): CategoryCond {
    if |cats| == 1 then CategoryEq(cats[0])
    else if |cats| > 1 then CategoryIn(cats)
    else AnyCategory
  }

  /** The query the handler builds for `q`, `category` and `tags`. */
  function FallbackQueryFor(q: string, category: string, tags: string): FallbackQuery {
    FallbackQuery(
      20,
      if q != "" then Some("%" + q + "%") else None,
      if category != "" then CategoryCondFor(SplitTrimmed(category)) else AnyCategory,
      if tags != "" then Some(SplitTrimmed(tags)) else None)
  }

  /** The fallback query, refined one condition at a time as the handler does. */
  method BuildFallback(q: string, category: string, tags: string) returns (query: FallbackQuery)
    ensures query == FallbackQueryFor(q, category, tags)
  {
    query := FallbackQuery(20, None, AnyCategory, None);
    if q != "" {
      query := query.(titlePattern := Some("%" + q + "%"));
    }
    if category != "" {
      var cats := SplitTrimmed(category);
      if |cats| == 1 {
        query := query.(category := CategoryEq(cats[0]));
      } else if |cats| > 1 {
        query := query.(category := CategoryIn(cats));
      }
    }
    if tags != "" {
      query := query.(tagsContain := Some(SplitTrimmed(tags)));
    }
  }

  function TagNames(tags: seq<CompatibilityTag>): seq<string> {
    seq(|tags|, k requires 0 <= k < |tags| => TagName(tags[k]))
  }

  /** Whether the database returns product `p` for the query; `ilike` is the
      database's case-insensitive pattern match. */
  predicate Matches(query: FallbackQuery, p: Product, ilike: (string, string) -> bool) {
    && p.status == Published
    && (query.titlePattern.None? || ilike(p.title, query.titlePattern.value))
    && CategoryHolds(query.category, p)
    && (query.tagsContain.None? || HasTags(p, query.tagsContain.value))
  }

  predicate CategoryHolds(cond: CategoryCond, p: Product) {
    match cond
    case AnyCategory => true
    case CategoryEq(c) => CategoryName(p.category) == c
    case CategoryIn(cs) => CategoryName(p.category) in cs
  }

  /** `contains("compatibility_tags", tags)`: the product carries every listed tag. */
  predicate HasTags(p: Product, tags: seq<string>) {
    forall t :: t in tags ==> t in TagNames(p.compatibility_tags)
  }

  /** One category as `eq` and several as `in` both mean "one of the listed
      categories"; no category means any. */
  lemma CategoryCondSelects(cats: seq<string>, p: Product)
    ensures CategoryHolds(CategoryCondFor(cats), p) <==> cats == [] || CategoryName(p.category) in cats
  {
    if |cats| == 1 {
      assert CategoryName(p.category) in cats <==> CategoryName(p.category) == cats[0];
    }
  }

  /** What the category and tag parameters ask for: one of the listed
      categories (any category when none is listed), and every listed tag. */
  predicate Selects(cats: seq<string>, tags: seq<string>, p: Product) {
    (cats == [] || CategoryName(p.category) in cats) && HasTags(p, tags)
  }

  /** The fallback query returns exactly the published products that match the
      title and that the parameters select: `eq` for one category and `in` for
      several both mean "one of the listed categories". */
  lemma FallbackSelects(q: string, category: string, tags: string, p: Product, ilike: (string, string) -> bool)
    ensures Matches(FallbackQueryFor(q, category, tags), p, ilike) <==>
      && p.status == Published
      && (q == "" || ilike(p.title, "%" + q + "%"))
      && Selects(SplitTrimmed(category), SplitTrimmed(tags), p)
  {
    SplitTrimmedEntries(category);
    SplitTrimmedEntries(tags);
    CategoryCondSelects(SplitTrimmed(category), p);
  }

  /** The response body: hits, the query text and the hit count. */
  datatype SearchResponse = SearchResponse(hits: seq<Product>, query: string, totalHits: nat)

  /** What the search engine does: answers with hits (and perhaps an estimated
      total), or cannot be reached / throws. */
  datatype EngineOutcome = EngineHits(hits: seq<Product>, query: string, estimatedTotalHits: Option<nat>)
                         | EngineUnavailable

  /** `GET`: the engine's answer when there is one; otherwise the first
      `limit` rows of `table` (newest first) that the fallback query matches,
      or no hits when the database query fails. */
  function Get(q: string, category: string, tags: string, engine: EngineOutcome,
               table: seq<Product>, dbFailed: bool, ilike: (string, string) -> bool): SearchResponse
  {
    match engine
    case EngineHits(hits, query, estimate) => SearchResponse(hits, query, estimate.GetOr(|hits|))
    case EngineUnavailable =>
      if dbFailed then SearchResponse([], q, 0)
      else
        var query := FallbackQueryFor(q, category, tags);
        var rows := Filter(table, MatchesFor(query, ilike));
        var hits := Take(rows, query.limit);
        SearchResponse(hits, q, |hits|)
  }

  /** The row filter of the fallback query. */
  function MatchesFor(query: FallbackQuery, ilike: (string, string) -> bool): Product -> bool {
    (p: Product) => Matches(query, p, ilike)
  }

  /** Without the engine, the response holds the first twenty published
      products (newest first) that match the title and that the parameters
      select, counted exactly: each hit is such a product, and such a product
      is missing only when all twenty places are taken. A failed database
      query gives an empty response rather than an error. */
  lemma FallbackResponse(q: string, category: string, tags: string, table: seq<Product>,
                         dbFailed: bool, ilike: (string, string) -> bool)
    ensures var r := Get(q, category, tags, EngineUnavailable, table, dbFailed, ilike);
      && r.query == q && r.totalHits == |r.hits| && |r.hits| <= 20
      && (dbFailed ==> r.hits == [])
      && (forall k :: 0 <= k < |r.hits| ==>
           && r.hits[k] in table && r.hits[k].status == Published
           && (q == "" || ilike(r.hits[k].title, "%" + q + "%"))
           && Selects(SplitTrimmed(category), SplitTrimmed(tags), r.hits[k]))
      && (!dbFailed ==> forall p ::
           (p in table && p !in r.hits && p.status == Published
            && (q == "" || ilike(p.title, "%" + q + "%"))
            && Selects(SplitTrimmed(category), SplitTrimmed(tags), p)) ==> |r.hits| == 20)
      && (!dbFailed ==> r.hits == Take(Filter(table, MatchesFor(FallbackQueryFor(q, category, tags), ilike)), 20))
  {
    if !dbFailed {
      var query := FallbackQueryFor(q, category, tags);
      var hits := Take(Filter(table, MatchesFor(query, ilike)), query.limit);
      TakeFiltered(table, MatchesFor(query, ilike), query.limit);
      TakeFilteredComplete(table, MatchesFor(query, ilike), query.limit);
      forall p | p in table && p !in hits && p.status == Published
          && (q == "" || ilike(p.title, "%" + q + "%"))
          && Selects(SplitTrimmed(category), SplitTrimmed(tags), p)
        ensures |hits| == 20
      {
        FallbackSelects(q, category, tags, p, ilike);
      }
      forall k | 0 <= k < |hits|
        ensures hits[k] in table && hits[k].status == Published
        ensures q == "" || ilike(hits[k].title, "%" + q + "%")
        ensures Selects(SplitTrimmed(category), SplitTrimmed(tags), hits[k])
      {
        FallbackSelects(q, category, tags, hits[k], ilike);
      }
    }
  }
}
