/** The seller's product list: the status tabs with their counts and the
    per-row buttons, whose conditions are the same as the server actions'
    status guards. */
module ProductList {
  import opened Common
  import opened Types
  import SellerActions

  /** `filterProducts`: no status keeps the list, a status keeps exactly the
      products with it, in order. */
  function FilterProducts(products: seq<Product>, status: Option<ProductStatus>): (r: seq<Product>)
    ensures status.None? ==> r == products
    ensures status.Some? ==> forall p :: p in r <==> p in products && p.status == status.value
  {
    if status.None? then products
    else
      var keep := (p: Product) => p.status == status.value;
      FilterMembers(products, keep);
      Filter(products, keep)
  }

  /** The count shown on a status tab. */
  function Count(products: seq<Product>, status: ProductStatus): (n: nat)
    ensures n <= |products|
  {
    |FilterProducts(products, Some(status))|
  }

  /** The four status counts add up to the total. */
  lemma {:induction false} CountsPartition(products: seq<Product>)
    ensures Count(products, Draft) + Count(products, InReview) + Count(products, Published)
            + Count(products, Archived) == |products|
    decreases |products|
  {
    if products != [] {
      CountsPartition(products[1..]);
      CountFirst(products, Draft);
      CountFirst(products, InReview);
      CountFirst(products, Published);
      CountFirst(products, Archived);
    }
  }

  /** A count is the first product's contribution plus the count of the rest. */
  lemma CountFirst(products: seq<Product>, status: ProductStatus)
    requires products != []
    ensures Count(products, status) == (if products[0].status == status then 1 else 0) + Count(products[1..], status)
  {
  }

  /** The three tabs besides "All" count at most every product, and exactly
      every product when none is archived. */
  lemma TabCounts(products: seq<Product>)
    ensures Count(products, Draft) + Count(products, InReview) + Count(products, Published) <= |products|
    ensures Count(products, Draft) + Count(products, InReview) + Count(products, Published) == |products|
      <==> forall p :: p in products ==> p.status != Archived
  {
    CountsPartition(products);
  }

  /** The Submit button is shown for drafts only. */
  predicate ShowsSubmit(p: Product) { p.status == Draft }

  /** The delete button is shown for every product that is not published. */
  predicate ShowsDelete(p: Product) { p.status != Published }

  /** Each button is offered exactly when the server action it calls would
      get past its status check. */
  lemma ButtonsMatchServerGuards(p: Product)
    ensures ShowsSubmit(p) <==> SellerActions.SubmitAllowed(p.status)
    ensures ShowsDelete(p) <==> SellerActions.DeleteAllowed(p.status)
  {
  }

  /** `handleDelete`: the id `deleteProduct` is called with, or nothing when
      no product is targeted. */
  function DeleteCall(target: Option<Product>): (r: Option<Id>)
    ensures r.None? <==> target.None?
    ensures r.Some? ==> r.value == target.value.id
  {
    if target.None? then None else Some(target.value.id)
  }
}
