/** Read queries over the product and purchase tables: the published-product
    listing with its pagination window, the featured products with their
    fallback, the purchase check and the seller dashboard statistics. A table
    is a sequence of rows in the order the query sorts them; whether a query
    fails is a parameter, and so is the database's case-insensitive pattern
    match on titles. */
module Queries {
  import opened Common
  import opened Types

  // ---- getPublishedProducts ----

  /** The optional arguments of the listing. */
  datatype ListOptions = ListOptions(category: Option<string>, limit: Option<int>, offset: Option<int>, search: Option<string>)

  /** The listing query beyond "published, newest first": an optional category
      equality, an optional title pattern, an optional row limit and an
      optional inclusive row range. */
  datatype ListQuery = ListQuery(category: Option<string>, titlePattern: Option<string>,
                                 limit: Option<int>, range: Option<(int, int)>)

  /** JavaScript truthiness of an optional string and an optional number. */
  predicate TruthyString(v: Option<string>) { v.Some? && v.value != "" }
  predicate TruthyNumber(v: Option<int>) { v.Some? && v.value != 0 }

  /** The query the listing builds. The offset is applied only when truthy, and
      the range's end uses `limit ?? 20`, where `??` (unlike truthiness) keeps a zero limit. */
  function ListQueryFor(o: ListOptions): ListQuery {
    ListQuery(
      if TruthyString(o.category) then o.category else None,
      if TruthyString(o.search) then Some("%" + o.search.value + "%") else None,
      if TruthyNumber(o.limit) then o.limit else None,
      if TruthyNumber(o.offset) then Some((o.offset.value, o.offset.value + o.limit.GetOr(20) - 1)) else None)
  }

  /** The listing query, refined step by step as `getPublishedProducts` does. */
  method BuildListQuery(o: ListOptions) returns (q: ListQuery)
    ensures q == ListQueryFor(o)
  {
    q := ListQuery(None, None, None, None);
    if TruthyString(o.category) {
      q := q.(category := o.category);
    }
    if TruthyString(o.search) {
      q := q.(titlePattern := Some("%" + o.search.value + "%"));
    }
    if TruthyNumber(o.limit) {
      q := q.(limit := o.limit);
    }
    if TruthyNumber(o.offset) {
      q := q.(range := Some((o.offset.value, o.offset.value + o.limit.GetOr(20) - 1)));
    }
  }

  /** Rows `from` to `to` inclusive, clipped to the rows that exist. */
  function Slice<T>(xs: seq<T>, from: int, to: int): (r: seq<T>)
    ensures |r| <= |xs|
    ensures 0 <= from ==> |r| <= if to + 1 - from < 0 then 0 else to + 1 - from
    ensures 0 <= from <= to + 1 <= |xs| ==> r == xs[from..to + 1]
  {
    var lo := if from < 0 then 0 else if from > |xs| then |xs| else from;
    var hi := if to + 1 < lo then lo else if to + 1 > |xs| then |xs| else to + 1;
    xs[lo..hi]
  }

  /** Which of the matching rows the database returns: a range replaces any
      earlier limit; a limit alone keeps the first rows. */
  function Window<T>(rows: seq<T>, q: ListQuery): seq<T> {
    match q.range
    case Some(r) => Slice(rows, r.0, r.1)
    case None =>
      match q.limit
      case Some(n) => Take(rows, if n < 0 then 0 else n)
      case None => rows
  }

  predicate Listed(q: ListQuery, p: Product, ilike: (string, string) -> bool) {
    && p.status == Published
    && (q.category.None? || CategoryName(p.category) == q.category.value)
    && (q.titlePattern.None? || ilike(p.title, q.titlePattern.value))
  }

  /** `getPublishedProducts`: the window of matching rows, or none on error. */
  function PublishedProducts(o: ListOptions, table: seq<Product>, failed: bool,
                             ilike: (string, string) -> bool): seq<Product> {
    if failed then []
    else
      var q := ListQueryFor(o);
      Window(Filter(table, ListedBy(q, ilike)), q)
  }

  /** The row filter of the listing query. */
  function ListedBy(q: ListQuery, ilike: (string, string) -> bool): Product -> bool {
    (p: Product) => Listed(q, p, ilike)
  }

  /** A non-zero offset and a positive page size select exactly the rows of that
      page, at most `limit ?? 20` of them. */
  lemma PageWindow(o: ListOptions, rows: seq<Product>)
    requires TruthyNumber(o.offset) && o.offset.value > 0
    requires o.limit.None? || o.limit.value > 0
    ensures var n, off := o.limit.GetOr(20), o.offset.value;
      var w := Window(rows, ListQueryFor(o));
      && |w| <= n
      && (off + n <= |rows| ==> w == rows[off..off + n])
  {
  }

  /** An offset of zero, or none, is ignored: the first `limit` rows are
      returned when a limit is set, all rows otherwise. */
  lemma ZeroOffsetIgnored(o: ListOptions, rows: seq<Product>)
    requires o.offset.None? || o.offset.value == 0
    ensures ListQueryFor(o).range.None?
    ensures TruthyNumber(o.limit) && o.limit.value > 0 ==> Window(rows, ListQueryFor(o)) == Take(rows, o.limit.value)
    ensures !TruthyNumber(o.limit) ==> Window(rows, ListQueryFor(o)) == rows
  {
  }

  /** A zero limit means "no limit" without an offset, but an empty page with one. */
  lemma ZeroLimit(category: Option<string>, search: Option<string>, offset: int, rows: seq<Product>)
    requires offset > 0
    ensures Window(rows, ListQueryFor(ListOptions(category, Some(0), None, search))) == rows
    ensures Window(rows, ListQueryFor(ListOptions(category, Some(0), Some(offset), search))) == []
  {
  }

  /** The listing is the window of all published rows matching the filters:
      every listed product is such a row; without a limit or an offset every
      such row is listed; with a positive limit and no offset such a row is
      left out only when the page is full. A failed query lists nothing. */
  lemma ListedRowsArePublished(o: ListOptions, table: seq<Product>, failed: bool, ilike: (string, string) -> bool)
    ensures forall p :: p in PublishedProducts(o, table, failed, ilike) ==>
      p in table && Listed(ListQueryFor(o), p, ilike) && p.status == Published
    ensures failed ==> PublishedProducts(o, table, failed, ilike) == []
    ensures !failed ==> PublishedProducts(o, table, failed, ilike) == Window(Filter(table, ListedBy(ListQueryFor(o), ilike)), ListQueryFor(o))
    ensures !failed && !TruthyNumber(o.limit) && !TruthyNumber(o.offset) ==>
      forall p :: p in table && Listed(ListQueryFor(o), p, ilike) ==> p in PublishedProducts(o, table, failed, ilike)
    ensures !failed && TruthyNumber(o.limit) && o.limit.value > 0 && !TruthyNumber(o.offset) ==>
      forall p :: p in table && Listed(ListQueryFor(o), p, ilike) && p !in PublishedProducts(o, table, failed, ilike) ==>
        |PublishedProducts(o, table, failed, ilike)| == o.limit.value
  {
    if !failed {
      var q := ListQueryFor(o);
      var rows := Filter(table, ListedBy(q, ilike));
      FilterMembers(table, ListedBy(q, ilike));
      var w := Window(rows, q);
      assert forall p :: p in w ==> p in rows;
      if TruthyNumber(o.limit) && o.limit.value > 0 && !TruthyNumber(o.offset) {
        TakeFilteredComplete(table, ListedBy(q, ilike), o.limit.value);
      }
    }
  }

  // ---- getFeaturedProducts ----

  /** `getFeaturedProducts(limit = 6)`: the newest published featured products;
      when there are none, the newest published products; nothing on error. */
  function FeaturedProducts(limit: Option<nat>, table: seq<Product>, featuredFailed: bool, newestFailed: bool): seq<Product> {
    var n := limit.GetOr(6);
    if featuredFailed then []
    else
      var featured := Take(Filter(table, FeaturedRow), n);
      if featured != [] then featured
      else if newestFailed then []
      else Take(Filter(table, PublishedRow), n)
  }

  predicate FeaturedRow(p: Product) { p.status == Published && p.featured }
  predicate PublishedRow(p: Product) { p.status == Published }

  /** At most `limit` published products; featured ones whenever some published
      product is featured, otherwise the newest published ones. */
  lemma FeaturedFallback(limit: Option<nat>, table: seq<Product>, featuredFailed: bool, newestFailed: bool)
    ensures var r := FeaturedProducts(limit, table, featuredFailed, newestFailed);
      && |r| <= limit.GetOr(6)
      && (forall k :: 0 <= k < |r| ==> r[k] in table && r[k].status == Published)
      && (!featuredFailed && limit.GetOr(6) > 0 && (exists p :: p in table && p.status == Published && p.featured) ==>
            r != [] && forall k :: 0 <= k < |r| ==> r[k].featured)
      && (!featuredFailed && !newestFailed && (forall p :: p in table && p.status == Published ==> !p.featured) ==>
            r == Take(Filter(table, PublishedRow), limit.GetOr(6)))
  {
    var n := limit.GetOr(6);
    TakeFiltered(table, FeaturedRow, n);
    TakeFiltered(table, PublishedRow, n);
    FilterMembers(table, FeaturedRow);
    if n > 0 && (exists p :: p in table && p.status == Published && p.featured) {
      var p :| p in table && p.status == Published && p.featured;
      assert p in Filter(table, FeaturedRow);
    }
  }

  // ---- checkPurchase ----

  /** `checkPurchase`: one `maybeSingle` row for (buyer, product). No row gives
      false; two or more rows are an error, which gives false like any error. */
  function CheckPurchase(purchases: seq<Purchase>, buyer: Id, product: Id, failed: bool): (owned: bool)
    ensures owned ==> exists k :: 0 <= k < |purchases| && purchases[k].buyer_id == buyer && purchases[k].product_id == product
  {
    var matches := (p: Purchase) => p.buyer_id == buyer && p.product_id == product;
    var rows := Filter(purchases, matches);
    FilterMembers(purchases, matches);
    if failed || |rows| != 1 then false
    else
      assert rows[0] in purchases;
      true
  }

  /** With at most one purchase per (buyer, product), the check answers whether
      that purchase exists, unless the query fails. */
  lemma CheckPurchaseIff(purchases: seq<Purchase>, buyer: Id, product: Id, failed: bool)
    requires forall i, j :: 0 <= i < j < |purchases| ==>
      !(purchases[i].buyer_id == purchases[j].buyer_id && purchases[i].product_id == purchases[j].product_id)
    ensures CheckPurchase(purchases, buyer, product, failed) <==>
      !failed && exists k :: 0 <= k < |purchases| && purchases[k].buyer_id == buyer && purchases[k].product_id == product
  {
    var f := (p: Purchase) => p.buyer_id == buyer && p.product_id == product;
    var rows := Filter(purchases, f);
    FilterMembers(purchases, f);
    AtMostOneMatch(purchases, f);
    if exists k :: 0 <= k < |purchases| && f(purchases[k]) {
      var k :| 0 <= k < |purchases| && f(purchases[k]);
      assert purchases[k] in rows;
    }
  }

  /** When no two rows both satisfy `f`, at most one row is kept. */
  lemma {:induction false} AtMostOneMatch(xs: seq<Purchase>, f: Purchase -> bool)
    requires forall i, j :: 0 <= i < j < |xs| ==> !(f(xs[i]) && f(xs[j]))
    ensures |Filter(xs, f)| <= 1
    decreases |xs|
  {
    if xs != [] {
      AtMostOneMatch(xs[1..], f);
      if f(xs[0]) {
        assert forall k :: 0 <= k < |xs[1..]| ==> !f(xs[1..][k]) by {
          forall k | 0 <= k < |xs[1..]| ensures !f(xs[1..][k]) {
            assert xs[1..][k] == xs[k + 1];
          }
        }
        FilterMembers(xs[1..], f);
        assert forall x :: x in xs[1..] ==> !f(x);
      }
    }
  }

  // ---- getSellerStats ----

  datatype SellerStats = SellerStats(totalProducts: int, publishedProducts: int, totalViews: int,
                                     totalSales: int, totalRevenue: int)

  const NO_STATS := SellerStats(0, 0, 0, 0, 0)

  /** The summed columns, with null counted as 0. */
  function ViewsOf(p: Product): int { p.view_count.GetOr(0) }
  function SalesOf(p: Product): int { p.purchase_count.GetOr(0) }
  function PayoutOf(p: Purchase): int { p.seller_payout.GetOr(0) }

  function SellerRows(table: seq<Product>, seller: Id): seq<Product> {
    Filter(table, (p: Product) => p.seller_id == seller)
  }

  function PublishedRows(ps: seq<Product>): seq<Product> {
    Filter(ps, (p: Product) => p.status == Published)
  }

  function Ids(ps: seq<Product>): (r: seq<Id>)
    ensures |r| == |ps| && forall k :: 0 <= k < |ps| ==> r[k] == ps[k].id
  {
    seq(|ps|, k requires 0 <= k < |ps| => ps[k].id)
  }

  /** The purchases of the given products. */
  function PurchasesOf(purchases: seq<Purchase>, ids: seq<Id>): seq<Purchase> {
    Filter(purchases, (pu: Purchase) => pu.product_id in ids)
  }

  /** What `getSellerStats` returns for `seller`. */
  function Stats(seller: Id, products: seq<Product>, productsFailed: bool,
                 purchases: seq<Purchase>, purchasesFailed: bool): SellerStats {
    if productsFailed then NO_STATS
    else
      var mine := SellerRows(products, seller);
      SellerStats(
        |mine|,
        |PublishedRows(mine)|,
        Sum(mine, ViewsOf),
        Sum(mine, SalesOf),
        if mine == [] || purchasesFailed then 0 else Sum(PurchasesOf(purchases, Ids(mine)), PayoutOf))
  }

  /** `getSellerStats`: counts and sums over the seller's products; the revenue
      starts at 0 and is replaced by the payout sum only when the seller has
      products (a failed purchases query reads as no purchases). */
  method GetSellerStats(seller: Id, products: seq<Product>, productsFailed: bool,
                        purchases: seq<Purchase>, purchasesFailed: bool) returns (stats: SellerStats)
    ensures stats == Stats(seller, products, productsFailed, purchases, purchasesFailed)
  {
    if productsFailed {
      return NO_STATS;
    }
    var productList := SellerRows(products, seller);
    var productIds := Ids(productList);
    var totalRevenue := 0;
    if |productIds| > 0 {
      var rows := if purchasesFailed then [] else PurchasesOf(purchases, productIds);
      totalRevenue := Sum(rows, PayoutOf);
    }
    stats := SellerStats(|productList|, |PublishedRows(productList)|, Sum(productList, ViewsOf),
                         Sum(productList, SalesOf), totalRevenue);
  }

  /** Published products are among all products; a seller without products, or
      whose products query failed, earns nothing. */
  lemma StatsBounds(seller: Id, products: seq<Product>, productsFailed: bool,
                    purchases: seq<Purchase>, purchasesFailed: bool)
    ensures var s := Stats(seller, products, productsFailed, purchases, purchasesFailed);
      && 0 <= s.publishedProducts <= s.totalProducts
      && (productsFailed ==> s == NO_STATS)
      && (SellerRows(products, seller) == [] ==> s.totalRevenue == 0 && s.totalViews == 0 && s.totalSales == 0)
      && (purchasesFailed ==> s.totalRevenue == 0)
  {
  }

  /** The counts and sums are additive: the statistics of a product table made
      of two parts are the sums of the parts' statistics. */
  lemma StatsAdditive(seller: Id, a: seq<Product>, b: seq<Product>)
    ensures var s, sa, sb := Stats(seller, a + b, false, [], true), Stats(seller, a, false, [], true), Stats(seller, b, false, [], true);
      && s.totalProducts == sa.totalProducts + sb.totalProducts
      && s.publishedProducts == sa.publishedProducts + sb.publishedProducts
      && s.totalViews == sa.totalViews + sb.totalViews
      && s.totalSales == sa.totalSales + sb.totalSales
  {
    var f := (p: Product) => p.seller_id == seller;
    FilterConcat(a, b, f);
    var ma, mb := SellerRows(a, seller), SellerRows(b, seller);
    FilterConcat(ma, mb, (p: Product) => p.status == Published);
    SumConcat(ma, mb, ViewsOf);
    SumConcat(ma, mb, SalesOf);
  }

  /** With non-negative counters, views, sales and revenue are non-negative. */
  lemma StatsNonNegative(seller: Id, products: seq<Product>, productsFailed: bool,
                         purchases: seq<Purchase>, purchasesFailed: bool)
    requires forall p :: p in products ==> ViewsOf(p) >= 0 && SalesOf(p) >= 0
    requires forall pu :: pu in purchases ==> PayoutOf(pu) >= 0
    ensures var s := Stats(seller, products, productsFailed, purchases, purchasesFailed);
      s.totalViews >= 0 && s.totalSales >= 0 && s.totalRevenue >= 0
  {
    if !productsFailed {
      var mine := SellerRows(products, seller);
      FilterMembers(products, (p: Product) => p.seller_id == seller);
      FilterMembers(purchases, (pu: Purchase) => pu.product_id in Ids(mine));
      SumNonNegative(mine, ViewsOf);
      SumNonNegative(mine, SalesOf);
      SumNonNegative(PurchasesOf(purchases, Ids(mine)), PayoutOf);
    }
  }
}
