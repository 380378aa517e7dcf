/** The seller's product form: the compatibility-tag toggle, the price-bound
    checks made before anything is sent, and the choice of server action on
    submit. The price arrives already converted to cents (`None` stands for a
    price field that does not parse as a number). */
module ProductForm {
  import opened Common
  import opened Types
  import opened ProductValidation

  const MSG_MIN_PRICE := "Minimum price is $1.00"
  const MSG_MAX_PRICE := "Maximum price is $999.00"

  // ---- toggleTag ----

  /** `prev.includes(tag) ? prev.filter((t) => t !== tag) : [...prev, tag]`. */
  function ToggleTag(prev: seq<CompatibilityTag>, tag: CompatibilityTag): (r: seq<CompatibilityTag>)
    ensures tag in r <==> tag !in prev
    ensures forall t :: t != tag ==> (t in r <==> t in prev)
    ensures forall t :: t != tag ==> multiset(r)[t] == multiset(prev)[t]
    ensures tag !in prev ==> r == prev + [tag]
  {
    if tag in prev then Without(prev, tag) else prev + [tag]
  }

  /** Toggling an absent tag twice gives the list back; toggling a present tag
      twice removes its copies and appends it once at the end. */
  lemma ToggleTwice(prev: seq<CompatibilityTag>, tag: CompatibilityTag)
    ensures tag !in prev ==> ToggleTag(ToggleTag(prev, tag), tag) == prev
    ensures tag in prev ==> ToggleTag(ToggleTag(prev, tag), tag) == Without(prev, tag) + [tag]
  {
    if tag !in prev {
      WithoutConcat(prev, [tag], tag);
      WithoutAbsent(prev, tag);
      assert Without([tag], tag) == [];
    }
  }

  // ---- The client-side price check ----

  /** The message the form shows for a price in cents, if any. */
  function PriceCheck(cents: Option<int>): Option<string> {
    if cents.None? || cents.value < 100 then Some(MSG_MIN_PRICE)
    else if cents.value > 99900 then Some(MSG_MAX_PRICE)
    else None
  }

  /** The form accepts exactly the prices the server schema accepts, with the
      same messages for each bound, so an accepted price is never rejected by
      the server. */
  lemma PriceCheckAgreesWithSchema(cents: int)
    ensures PriceCheck(Some(cents)).None? <==> PriceOk(cents as real)
    ensures PriceCheck(Some(cents)).None? <==> PriceIssues(Some(cents as real), false) == []
    ensures PriceCheck(Some(cents)).Some? ==> PriceCheck(Some(cents)).value == PriceIssues(Some(cents as real), false)[0].message
  {
  }

  // ---- handleSubmit ----

  datatype Mode = CreateMode | EditMode

  /** The form fields at submit time. */
  datatype FormState = FormState(
    title: string,
    descriptionMd: string,
    shortDescription: string,
    category: Category,
    cents: Option<int>,
    license: LicenseType,
    tags: seq<CompatibilityTag>)

  /** What a submit does: show a price error, call one of the two actions, or nothing. */
  datatype Submission = PriceError(message: string) | CallCreate(input: ProductInput)
                      | CallUpdate(productId: Id, input: ProductInput) | NoCall

  /** The object the form sends: every field present, enums as their wire names. */
  function FormInput(s: FormState): ProductInput
    requires s.cents.Some?
  {
    ProductInput(
      Some(s.title), Some(s.descriptionMd), Some(s.shortDescription),
      Some(CategoryName(s.category)), Some(s.cents.value as real), Some(LicenseName(s.license)),
      Some(seq(|s.tags|, k requires 0 <= k < |s.tags| => TagName(s.tags[k]))))
  }

  function HandleSubmit(mode: Mode, product: Option<Product>, s: FormState): Submission {
    match PriceCheck(s.cents)
    case Some(message) => PriceError(message)
    case None =>
      if mode == CreateMode then CallCreate(FormInput(s))
      else if product.Some? then CallUpdate(product.value.id, FormInput(s))
      else NoCall
  }

  /** An out-of-range price is reported without any call; otherwise create mode
      calls `createProduct`, edit mode calls `updateProduct` with the edited
      product's id, and edit mode without a product does nothing. */
  lemma SubmitDispatch(mode: Mode, product: Option<Product>, s: FormState)
    ensures PriceCheck(s.cents).Some? ==> HandleSubmit(mode, product, s) == PriceError(PriceCheck(s.cents).value)
    ensures PriceCheck(s.cents).None? && mode == CreateMode ==> HandleSubmit(mode, product, s).CallCreate?
    ensures PriceCheck(s.cents).None? && mode == EditMode && product.Some? ==>
      HandleSubmit(mode, product, s) == CallUpdate(product.value.id, FormInput(s))
    ensures mode == EditMode && product.None? ==> HandleSubmit(mode, product, s) in {NoCall, PriceError(MSG_MIN_PRICE), PriceError(MSG_MAX_PRICE)}
  {
  }

  /** Everything the form sends that comes from a menu (category, license,
      tags) is accepted by the schema, so once the price check passes the
      server can only object to the title, the description or the short
      description. */
  lemma FormInputAcceptance(s: FormState)
    requires PriceCheck(s.cents).None?
    ensures ParseCreate(FormInput(s)).Valid? <==>
      TitleOk(s.title) && DescriptionOk(s.descriptionMd) && ShortDescriptionOk(Some(s.shortDescription))
    ensures ParseUpdate(FormInput(s)).Valid? <==> ParseCreate(FormInput(s)).Valid?
  {
    var i := FormInput(s);
    CreateAcceptsExactly(i);
    UpdateAcceptsExactly(i);
    SchemaTagsMatchType();
    PriceCheckAgreesWithSchema(s.cents.value);
    assert ParseCategory(CategoryName(s.category)).Some?;
    assert ParseLicense(LicenseName(s.license)).Some?;
    assert forall k :: 0 <= k < |s.tags| ==> ParseTag(i.compatibility_tags.value[k]).Some?;
  }
}
