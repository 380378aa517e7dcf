/** The seller's server actions over the `products` and `product_files`
    tables and the `product-files` storage bucket. Every action first
    checks that someone is signed in, then (where it applies) validates its
    input, then checks that the target row exists and belongs to the caller,
    then applies its status guard, and finally performs one write.

    The database and the storage service are the fields of `Store`; what they
    decide on their own (fresh ids, write failures, the random slug suffix,
    the clock) arrives as parameters. */
module SellerActions {
  import opened Common
  import opened Types
  import opened ProductValidation
  import Strings

  const NOT_AUTHENTICATED := "Not authenticated"
  const NOT_FOUND := "Product not found or not authorized"
  const CANNOT_DELETE_PUBLISHED := "Cannot delete a published product. Archive it first."
  const ONLY_DRAFT := "Only draft products can be submitted for review"
  const INCOMPLETE := "Product must have a title, description, and price"
  const UPLOAD_FIELDS_REQUIRED := "Product ID and file are required"
  const FILE_NOT_FOUND := "File not found or not authorized"

  /** `{ id, slug }` of the written product row. */
  datatype Written = Written(id: Id, slug: string)

  /** A browser `File`. */
  datatype Blob = Blob(name: string, size: int, mimeType: string)

  /** The `FormData` an upload carries: `productId`, `file` and `isPreview`. */
  datatype UploadForm = UploadForm(productId: Option<string>, file: Option<Blob>, isPreview: Option<string>)

  /** Row `id` exists and belongs to `user`. */
  predicate Owns(products: map<Id, Product>, user: Id, id: Id) {
    id in products && products[id].seller_id == user
  }

  /** File `fileId` exists and its parent product belongs to `user`. */
  predicate OwnsFile(products: map<Id, Product>, files: map<Id, ProductFile>, user: Id, fileId: Id) {
    fileId in files && Owns(products, user, files[fileId].product_id)
  }

  /** The status guard of `deleteProduct`. */
  predicate DeleteAllowed(st: ProductStatus) { st != Published }

  /** The status guard of `submitForReview`. */
  predicate SubmitAllowed(st: ProductStatus) { st == Draft }

  /** The completeness check of `submitForReview`: an empty title or
      description or a zero price is falsy. */
  predicate Complete(p: Product) { p.title != "" && p.description_md != "" && p.price != 0 }

  /** The row `createProduct` inserts. */
  function NewRow(id: Id, seller: Id, slug: string, d: ProductData): (r: Product)
    ensures r.id == id && r.seller_id == seller && r.slug == slug && r.status == Draft
    ensures r.title == d.title && r.description_md == d.description_md && r.category == d.category
    ensures r.price == d.price && r.license_type == d.license_type && r.compatibility_tags == d.compatibility_tags
    ensures r.short_description.None? <==> d.short_description in {None, Some("")}
    ensures d.short_description.Some? && d.short_description.value != "" ==> r.short_description == d.short_description
    // the columns the insert leaves to the table's defaults
    ensures r.currency.None? && !r.featured && r.purchase_count == Some(0) && r.view_count == Some(0)
  {
    Product(id, seller, d.title, slug, d.description_md,
      OrNull(d.short_description),
      d.category, d.price, None, d.license_type, d.compatibility_tags, Draft, false, Some(0), Some(0))
  }

  /** The row `updateProduct` writes: the fields present in the patch replace
      the old ones; `short_description` is always written, null when absent or empty. */
  function Patched(p: Product, patch: ProductPatch): (r: Product)
    ensures r.id == p.id && r.seller_id == p.seller_id && r.slug == p.slug && r.status == p.status
    ensures r.featured == p.featured && r.purchase_count == p.purchase_count && r.view_count == p.view_count
    ensures r.currency == p.currency
    ensures patch.title.Some? ==> r.title == patch.title.value
    ensures patch.title.None? ==> r.title == p.title
    ensures patch.description_md.Some? ==> r.description_md == patch.description_md.value
    ensures patch.description_md.None? ==> r.description_md == p.description_md
    ensures patch.category.Some? ==> r.category == patch.category.value
    ensures patch.category.None? ==> r.category == p.category
    ensures patch.price.Some? ==> r.price == patch.price.value
    ensures patch.price.None? ==> r.price == p.price
    ensures patch.license_type.Some? ==> r.license_type == patch.license_type.value
    ensures patch.license_type.None? ==> r.license_type == p.license_type
    ensures patch.compatibility_tags.Some? ==> r.compatibility_tags == patch.compatibility_tags.value
    ensures patch.compatibility_tags.None? ==> r.compatibility_tags == p.compatibility_tags
    ensures r.short_description.None? <==> patch.short_description in {None, Some("")}
    ensures patch.short_description.Some? && patch.short_description.value != "" ==>
      r.short_description == patch.short_description
  {
    p.(title := patch.title.GetOr(p.title),
       description_md := patch.description_md.GetOr(p.description_md),
       short_description := OrNull(patch.short_description),
       category := patch.category.GetOr(p.category),
       price := patch.price.GetOr(p.price),
       license_type := patch.license_type.GetOr(p.license_type),
       compatibility_tags := patch.compatibility_tags.GetOr(p.compatibility_tags))
  }

  /** `products/<productId>/<timestamp>-<file name>`. */
  function StoragePath(productId: Id, now: nat, name: string): string {
    "products/" + productId + "/" + Strings.Decimal(now) + "-" + name
  }

  /** The `isPreview` form field is read as true only when it is the string "true". */
  predicate PreviewFlag(v: Option<string>) { v == Some("true") }

  /** A status change a seller action may make: none, or draft to in review. */
  predicate StatusMove(before: ProductStatus, after: ProductStatus) {
    before == after || (before == Draft && after == InReview)
  }

  /** What one seller action, run by `user`, may do to the products table:
      insert drafts owned by the user, delete the user's unpublished rows, and
      change the user's rows without changing their owner and with only the
      draft-to-review status move. */
  ghost predicate SellerStep(before: map<Id, Product>, after: map<Id, Product>, user: Option<Id>) {
    && (forall id :: id in after && id !in before ==>
          user == Some(after[id].seller_id) && after[id].status == Draft)
    && (forall id :: id in before && id !in after ==>
          user == Some(before[id].seller_id) && DeleteAllowed(before[id].status))
    && (forall id :: id in before && id in after && after[id] != before[id] ==>
          user == Some(before[id].seller_id) && after[id].seller_id == before[id].seller_id
          && StatusMove(before[id].status, after[id].status))
  }

  class Store {
    var products: map<Id, Product>
    var files: map<Id, ProductFile>
    var storage: set<string>   // object paths in the product-files bucket
    var user: Option<Id>       // the signed-in user of the request

    ghost predicate Valid()
      reads this
    {
      && (forall id :: id in products ==> products[id].id == id)
      && (forall id :: id in files ==> files[id].id == id)
    }

    constructor (user: Option<Id>, products: map<Id, Product>, files: map<Id, ProductFile>, storage: set<string>)
      requires forall id :: id in products ==> products[id].id == id
      requires forall id :: id in files ==> files[id].id == id
      ensures Valid()
      ensures this.user == user && this.products == products && this.files == files && this.storage == storage
    {
      this.user := user;
      this.products := products;
      this.files := files;
      this.storage := storage;
    }

    /** `createProduct`: inserts a draft owned by the caller. */
    method CreateProduct(input: ProductInput, newId: Id, slug: string, dbError: Option<string>)
      returns (r: ActionResult<Written>)
      requires Valid() && newId !in products
      modifies this
      ensures Valid() && user == old(user) && files == old(files) && storage == old(storage)
      ensures SellerStep(old(products), products, user)
      ensures user.None? ==> r == Error(NOT_AUTHENTICATED) && products == old(products)
      ensures user.Some? && ParseCreate(input).Invalid? ==>
        r == Error(ParseCreate(input).issues[0].message) && products == old(products)
      ensures user.Some? && ParseCreate(input).Valid? && dbError.Some? ==>
        r == Error(dbError.value) && products == old(products)
      ensures user.Some? && ParseCreate(input).Valid? && dbError.None? ==>
        r == Data(Written(newId, slug))
        && products == old(products)[newId := NewRow(newId, user.value, slug, ParseCreate(input).value)]
    {
      if user.None? {
        return Error(NOT_AUTHENTICATED);
      }
      var parsed := ParseCreate(input);
      if parsed.Invalid? {
        return Error(parsed.issues[0].message);
      }
      if dbError.Some? {
        return Error(dbError.value);
      }
      products := products[newId := NewRow(newId, user.value, slug, parsed.value)];
      r := Data(Written(newId, slug));
    }

    /** `updateProduct`: overwrites the schema fields present in the input on a
        row the caller owns. There is no status guard. The ownership read keeps
        only its data, so a failed read (`readFailed`) answers "not found" even
        for an owned row. */
    method UpdateProduct(productId: Id, input: ProductInput, readFailed: bool, dbError: Option<string>)
      returns (r: ActionResult<Written>)
      requires Valid()
      modifies this
      ensures Valid() && user == old(user) && files == old(files) && storage == old(storage)
      ensures SellerStep(old(products), products, user)
      ensures user.None? ==> r == Error(NOT_AUTHENTICATED) && products == old(products)
      ensures user.Some? && ParseUpdate(input).Invalid? ==>
        r == Error(ParseUpdate(input).issues[0].message) && products == old(products)
      ensures user.Some? && ParseUpdate(input).Valid? && readFailed ==>
        r == Error(NOT_FOUND) && products == old(products)
      ensures user.Some? && ParseUpdate(input).Valid? && !Owns(old(products), user.value, productId) ==>
        r == Error(NOT_FOUND) && products == old(products)
      ensures user.Some? && ParseUpdate(input).Valid? && !readFailed && Owns(old(products), user.value, productId) ==>
        if dbError.Some? then r == Error(dbError.value) && products == old(products)
        else
          && products == old(products)[productId := Patched(old(products)[productId], ParseUpdate(input).value)]
          && r == Data(Written(productId, old(products)[productId].slug))
    {
      if user.None? {
        return Error(NOT_AUTHENTICATED);
      }
      var parsed := ParseUpdate(input);
      if parsed.Invalid? {
        return Error(parsed.issues[0].message);
      }
      if readFailed || !Owns(products, user.value, productId) {
        return Error(NOT_FOUND);
      }
      if dbError.Some? {
        return Error(dbError.value);
      }
      var row := Patched(products[productId], parsed.value);
      products := products[productId := row];
      r := Data(Written(productId, row.slug));
    }

    /** `deleteProduct`: removes a row the caller owns unless it is published.
        A failed ownership read (`readFailed`) answers "not found". */
    method DeleteProduct(productId: Id, readFailed: bool, dbError: Option<string>) returns (r: ActionResult<Done>)
      requires Valid()
      modifies this
      ensures Valid() && user == old(user) && files == old(files) && storage == old(storage)
      ensures SellerStep(old(products), products, user)
      ensures user.None? ==> r == Error(NOT_AUTHENTICATED) && products == old(products)
      ensures user.Some? && readFailed ==> r == Error(NOT_FOUND) && products == old(products)
      ensures user.Some? && !Owns(old(products), user.value, productId) ==>
        r == Error(NOT_FOUND) && products == old(products)
      ensures user.Some? && !readFailed && Owns(old(products), user.value, productId) ==>
        if !DeleteAllowed(old(products)[productId].status) then
          r == Error(CANNOT_DELETE_PUBLISHED) && products == old(products)
        else if dbError.Some? then r == Error(dbError.value) && products == old(products)
        else r == Data(Done) && products == old(products) - {productId}
    {
      if user.None? {
        return Error(NOT_AUTHENTICATED);
      }
      if readFailed || !Owns(products, user.value, productId) {
        return Error(NOT_FOUND);
      }
      if !DeleteAllowed(products[productId].status) {
        return Error(CANNOT_DELETE_PUBLISHED);
      }
      if dbError.Some? {
        return Error(dbError.value);
      }
      products := products - {productId};
      r := Data(Done);
    }

    /** `submitForReview`: moves a complete draft the caller owns to in review.
        A failed read of the row (`readFailed`) answers "not found". */
    method SubmitForReview(productId: Id, readFailed: bool, dbError: Option<string>) returns (r: ActionResult<Done>)
      requires Valid()
      modifies this
      ensures Valid() && user == old(user) && files == old(files) && storage == old(storage)
      ensures SellerStep(old(products), products, user)
      ensures user.None? ==> r == Error(NOT_AUTHENTICATED) && products == old(products)
      ensures user.Some? && readFailed ==> r == Error(NOT_FOUND) && products == old(products)
      ensures user.Some? && !Owns(old(products), user.value, productId) ==>
        r == Error(NOT_FOUND) && products == old(products)
      ensures user.Some? && !readFailed && Owns(old(products), user.value, productId) ==>
        var p := old(products)[productId];
        if !SubmitAllowed(p.status) then r == Error(ONLY_DRAFT) && products == old(products)
        else if !Complete(p) then r == Error(INCOMPLETE) && products == old(products)
        else if dbError.Some? then r == Error(dbError.value) && products == old(products)
        else r == Data(Done) && products == old(products)[productId := p.(status := InReview)]
    {
      if user.None? {
        return Error(NOT_AUTHENTICATED);
      }
      if readFailed || !Owns(products, user.value, productId) {
        return Error(NOT_FOUND);
      }
      var p := products[productId];
      if !SubmitAllowed(p.status) {
        return Error(ONLY_DRAFT);
      }
      if !Complete(p) {
        return Error(INCOMPLETE);
      }
      if dbError.Some? {
        return Error(dbError.value);
      }
      products := products[productId := p.(status := InReview)];
      r := Data(Done);
    }

    /** `uploadProductFile`: stores the file under the product's folder, then
        records it. A failed record insert leaves the stored object behind.
        A failed ownership read (`readFailed`) answers "not found". */
    method UploadProductFile(form: UploadForm, now: nat, newFileId: Id, readFailed: bool,
                             uploadError: Option<string>, dbError: Option<string>)
      returns (r: ActionResult<ProductFile>)
      requires Valid() && newFileId !in files
      modifies this
      ensures Valid() && user == old(user) && products == old(products)
      ensures user.None? ==>
        r == Error(NOT_AUTHENTICATED) && files == old(files) && storage == old(storage)
      ensures user.Some? && (form.productId in {None, Some("")} || form.file.None?) ==>
        r == Error(UPLOAD_FIELDS_REQUIRED) && files == old(files) && storage == old(storage)
      ensures user.Some? && form.productId.Some? && form.productId.value != "" && form.file.Some?
              && (readFailed || !Owns(products, user.value, form.productId.value)) ==>
        r == Error(NOT_FOUND) && files == old(files) && storage == old(storage)
      ensures user.Some? && form.productId.Some? && form.productId.value != "" && form.file.Some?
              && !readFailed && Owns(products, user.value, form.productId.value) ==>
        var pid, blob := form.productId.value, form.file.value;
        var path := StoragePath(pid, now, blob.name);
        if uploadError.Some? then
          r == Error(uploadError.value) && files == old(files) && storage == old(storage)
        else if dbError.Some? then
          r == Error(dbError.value) && files == old(files) && storage == old(storage) + {path}
        else
          var rec := ProductFile(newFileId, pid, blob.name, path, Some(blob.size), Some(blob.mimeType),
                                 PreviewFlag(form.isPreview));
          r == Data(rec) && files == old(files)[newFileId := rec] && storage == old(storage) + {path}
    {
      if user.None? {
        return Error(NOT_AUTHENTICATED);
      }
      if form.productId.None? || form.productId.value == "" || form.file.None? {
        return Error(UPLOAD_FIELDS_REQUIRED);
      }
      var pid, blob := form.productId.value, form.file.value;
      if readFailed || !Owns(products, user.value, pid) {
        return Error(NOT_FOUND);
      }
      var path := StoragePath(pid, now, blob.name);
      if uploadError.Some? {
        return Error(uploadError.value);
      }
      storage := storage + {path};
      if dbError.Some? {
        return Error(dbError.value);
      }
      var rec := ProductFile(newFileId, pid, blob.name, path, Some(blob.size), Some(blob.mimeType),
                             PreviewFlag(form.isPreview));
      files := files[newFileId := rec];
      r := Data(rec);
    }

    /** `deleteProductFile`: removes the stored object (its outcome is ignored)
        and then the record, for a file whose product the caller owns. A failed
        read of the file and its owner (`readFailed`) answers "not found". */
    method DeleteProductFile(fileId: Id, readFailed: bool, objectRemoved: bool, dbError: Option<string>)
      returns (r: ActionResult<Done>)
      requires Valid()
      modifies this
      ensures Valid() && user == old(user) && products == old(products)
      ensures user.None? ==>
        r == Error(NOT_AUTHENTICATED) && files == old(files) && storage == old(storage)
      ensures user.Some? && (readFailed || !OwnsFile(products, old(files), user.value, fileId)) ==>
        r == Error(FILE_NOT_FOUND) && files == old(files) && storage == old(storage)
      ensures user.Some? && !readFailed && OwnsFile(products, old(files), user.value, fileId) ==>
        && storage == (if objectRemoved then old(storage) - {old(files)[fileId].file_path} else old(storage))
        && (if dbError.Some? then r == Error(dbError.value) && files == old(files)
            else r == Data(Done) && files == old(files) - {fileId})
    {
      if user.None? {
        return Error(NOT_AUTHENTICATED);
      }
      if readFailed || !OwnsFile(products, files, user.value, fileId) {
        return Error(FILE_NOT_FOUND);
      }
      if objectRemoved {
        storage := storage - {files[fileId].file_path};
      }
      if dbError.Some? {
        return Error(dbError.value);
      }
      files := files - {fileId};
      r := Data(Done);
    }
  }

  /** Over any sequence of seller actions (by any users), a product that was
      published at the start is still there and still published at the end,
      and a product published at the end was already published at the start:
      no seller action publishes, unpublishes or deletes a published product. */
  lemma {:induction false} PublishedRowsPersist(trace: seq<map<Id, Product>>, users: seq<Option<Id>>, id: Id)
    requires |trace| == |users| + 1
    requires forall k :: 0 <= k < |users| ==> SellerStep(trace[k], trace[k + 1], users[k])
    ensures id in trace[0] && trace[0][id].status == Published ==>
      id in trace[|users|] && trace[|users|][id].status == Published
    ensures id in trace[|users|] && trace[|users|][id].status == Published ==>
      id in trace[0] && trace[0][id].status == Published
    decreases |users|
  {
    if |users| > 0 {
      var n := |users|;
      PublishedRowsPersist(trace[..n], users[..n - 1], id);
      assert SellerStep(trace[n - 1], trace[n], users[n - 1]);
    }
  }

  /** Rows of a seller who ran none of the actions are never touched, and no row
      of theirs appears: every write is confined to the caller's own rows. */
  lemma {:induction false} ForeignRowsUntouched(trace: seq<map<Id, Product>>, users: seq<Option<Id>>, seller: Id, id: Id)
    requires |trace| == |users| + 1
    requires forall k :: 0 <= k < |users| ==> SellerStep(trace[k], trace[k + 1], users[k])
    requires forall k :: 0 <= k < |users| ==> users[k] != Some(seller)
    ensures id in trace[0] && trace[0][id].seller_id == seller ==>
      id in trace[|users|] && trace[|users|][id] == trace[0][id]
    ensures id in trace[|users|] && trace[|users|][id].seller_id == seller ==>
      id in trace[0] && trace[0][id] == trace[|users|][id]
    decreases |users|
  {
    if |users| > 0 {
      var n := |users|;
      ForeignRowsUntouched(trace[..n], users[..n - 1], seller, id);
      assert SellerStep(trace[n - 1], trace[n], users[n - 1]);
    }
  }
}
