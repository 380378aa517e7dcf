/** The product schema used by the create and update actions, as a function
    from the submitted fields to either the parsed product or the list of
    issues, in the order the schema library reports them (fields in schema
    order, checks of one field in declaration order). The update schema is
    the same schema with every field optional. Unknown keys are stripped by
    the schema, which the input type reflects by having only schema fields. */
module ProductValidation {
  import opened Common
  import opened Types
  import Strings

  /** The fields a client submits; `None` is an absent (undefined) field.
      Prices arrive as JavaScript numbers, modelled as (finite) reals. */
  datatype ProductInput = ProductInput(
    title: Option<string>,
    description_md: Option<string>,
    short_description: Option<string>,
    category: Option<string>,
    price: Option<real>,
    license_type: Option<string>,
    compatibility_tags: Option<seq<string>>)

  /** What the create schema yields. */
  datatype ProductData = ProductData(
    title: string,
    description_md: string,
    short_description: Option<string>,
    category: Category,
    price: int,
    license_type: LicenseType,
    compatibility_tags: seq<CompatibilityTag>)

  /** What the update schema yields: only the fields that were present. */
  datatype ProductPatch = ProductPatch(
    title: Option<string>,
    description_md: Option<string>,
    short_description: Option<string>,
    category: Option<Category>,
    price: Option<int>,
    license_type: Option<LicenseType>,
    compatibility_tags: Option<seq<CompatibilityTag>>)

  datatype Parsed<+T> = Valid(value: T) | Invalid(issues: seq<Issue>)

  /** The literal option lists of the schema's three enums. */
  const SCHEMA_CATEGORIES: seq<string> :=
    ["starter", "workflow_kit", "extension", "launchable", "context_pack", "blueprint"]
  const SCHEMA_LICENSES: seq<string> := ["personal", "commercial", "team"]
  const SCHEMA_TAGS: seq<string> :=
    ["claude_4.5", "claude_4", "gpt_4.5", "gpt_4", "gemini_2", "cursor", "windsurf", "v0", "bolt", "lovable", "replit"]

  const MSG_REQUIRED := "Required"
  const MSG_TITLE_MIN := "Title must be at least 3 characters"
  const MSG_TITLE_MAX := "Title must be under 100 characters"
  const MSG_DESCRIPTION_MIN := "Description must be at least 20 characters"
  const MSG_SHORT_MAX := "Short description must be under 160 characters"
  const MSG_PRICE_INT := "Price must be a whole number of cents"
  const MSG_PRICE_MIN := "Minimum price is $1.00"
  const MSG_PRICE_MAX := "Maximum price is $999.00"

  /** The schema library's default message for a value outside an enum. */
  function EnumMessage(options: seq<string>, received: string): string {
    "Invalid enum value. Expected "
    + Strings.Join(seq(|options|, k requires 0 <= k < |options| => "'" + options[k] + "'"), " | ")
    + ", received '" + received + "'"
  }

  // ---- The constraints, stated once as plain predicates ----

  predicate TitleOk(s: string) { 3 <= |s| <= 100 }
  predicate DescriptionOk(s: string) { |s| >= 20 }
  predicate ShortDescriptionOk(s: Option<string>) { s.None? || s.value == "" || |s.value| <= 160 }
  predicate PriceOk(p: real) { p == p.Floor as real && 100.0 <= p <= 99900.0 }

  // ---- The issue lists, field by field ----

  function TitleIssues(v: Option<string>, partial: bool): seq<Issue> {
    match v
    case None => if partial then [] else [Issue("title", MSG_REQUIRED)]
    case Some(s) =>
      (if |s| < 3 then [Issue("title", MSG_TITLE_MIN)] else [])
      + (if |s| > 100 then [Issue("title", MSG_TITLE_MAX)] else [])
  }

  function DescriptionIssues(v: Option<string>, partial: bool): seq<Issue> {
    match v
    case None => if partial then [] else [Issue("description_md", MSG_REQUIRED)]
    case Some(s) => if |s| < 20 then [Issue("description_md", MSG_DESCRIPTION_MIN)] else []
  }

  /** `.string().max(160).optional().or(z.literal(""))`: absent or short enough;
      when both alternatives fail, the first alternative's issue is reported. */
  function ShortDescriptionIssues(v: Option<string>): seq<Issue> {
    match v
    case None => []
    case Some(s) => if |s| > 160 && s != "" then [Issue("short_description", MSG_SHORT_MAX)] else []
  }

  function CategoryIssues(v: Option<string>, partial: bool): seq<Issue> {
    match v
    case None => if partial then [] else [Issue("category", MSG_REQUIRED)]
    case Some(s) => if s in SCHEMA_CATEGORIES then [] else [Issue("category", EnumMessage(SCHEMA_CATEGORIES, s))]
  }

  function PriceIssues(v: Option<real>, partial: bool): seq<Issue> {
    match v
    case None => if partial then [] else [Issue("price", MSG_REQUIRED)]
    case Some(p) =>
      (if p != p.Floor as real then [Issue("price", MSG_PRICE_INT)] else [])
      + (if p < 100.0 then [Issue("price", MSG_PRICE_MIN)] else [])
      + (if p > 99900.0 then [Issue("price", MSG_PRICE_MAX)] else [])
  }

  /** The license may always be absent (the create schema then uses its default). */
  function LicenseIssues(v: Option<string>): seq<Issue> {
    match v
    case None => []
    case Some(s) => if s in SCHEMA_LICENSES then [] else [Issue("license_type", EnumMessage(SCHEMA_LICENSES, s))]
  }

  /** One issue per element outside the tag enum, in element order. */
  function TagListIssues(tags: seq<string>): (r: seq<Issue>)
    ensures r == [] <==> forall k :: 0 <= k < |tags| ==> tags[k] in SCHEMA_TAGS
  {
    if tags == [] then []
    else
      (if tags[0] in SCHEMA_TAGS then [] else [Issue("compatibility_tags", EnumMessage(SCHEMA_TAGS, tags[0]))])
      + TagListIssues(tags[1..])
  }

  function TagIssues(v: Option<seq<string>>): seq<Issue> {
    match v
    case None => []
    case Some(tags) => TagListIssues(tags)
  }

  /** All issues of an input, in the order the schema reports them. */
  function Issues(i: ProductInput, partial: bool): seq<Issue> {
    TitleIssues(i.title, partial)
    + DescriptionIssues(i.description_md, partial)
    + ShortDescriptionIssues(i.short_description)
    + CategoryIssues(i.category, partial)
    + PriceIssues(i.price, partial)
    + LicenseIssues(i.license_type)
    + TagIssues(i.compatibility_tags)
  }

  function ParseTags(tags: seq<string>): (r: seq<CompatibilityTag>)
    requires forall k :: 0 <= k < |tags| ==> tags[k] in SCHEMA_TAGS
    ensures |r| == |tags| && forall k :: 0 <= k < |tags| ==> TagName(r[k]) == tags[k]
  {
    SchemaTagsMatchType();
    seq(|tags|, k requires 0 <= k < |tags| => ParseTag(tags[k]).value)
  }

  /** `createProductSchema.safeParse`. */
  function ParseCreate(i: ProductInput): (r: Parsed<ProductData>)
    ensures r.Invalid? <==> Issues(i, false) != []
    ensures r.Invalid? ==> r.issues == Issues(i, false)
  {
    var issues := Issues(i, false);
    if issues != [] then Invalid(issues)
    else
      SchemaCategoriesMatchType();
      SchemaLicensesMatchType();
      Valid(ProductData(
        i.title.value,
        i.description_md.value,
        i.short_description,
        ParseCategory(i.category.value).value,
        i.price.value.Floor,
        if i.license_type.None? then Personal else ParseLicense(i.license_type.value).value,
        if i.compatibility_tags.None? then [] else ParseTags(i.compatibility_tags.value)))
  }

  /** `updateProductSchema.safeParse` (`createProductSchema.partial()`): absent
      fields stay absent, even those with a default in the create schema. */
  function ParseUpdate(i: ProductInput): (r: Parsed<ProductPatch>)
    ensures r.Invalid? <==> Issues(i, true) != []
    ensures r.Invalid? ==> r.issues == Issues(i, true)
  {
    var issues := Issues(i, true);
    if issues != [] then Invalid(issues)
    else
      SchemaCategoriesMatchType();
      SchemaLicensesMatchType();
      Valid(ProductPatch(
        i.title,
        i.description_md,
        i.short_description,
        if i.category.None? then None else Some(ParseCategory(i.category.value).value),
        if i.price.None? then None else Some(i.price.value.Floor),
        if i.license_type.None? then None else Some(ParseLicense(i.license_type.value).value),
        if i.compatibility_tags.None? then None else Some(ParseTags(i.compatibility_tags.value))))
  }

  /** The message a handler returns for a rejected input: that of the first issue. */
  function FirstMessage<T>(p: Parsed<T>): string
    requires p.Invalid? && p.issues != []
  {
    p.issues[0].message
  }

  // ---- Properties ----

  /** The schema's category enum accepts exactly the six category names. */
  lemma SchemaCategoriesMatchType()
    ensures |SCHEMA_CATEGORIES| == 6
    ensures forall s :: s in SCHEMA_CATEGORIES <==> ParseCategory(s).Some?
    ensures forall c :: CategoryName(c) in SCHEMA_CATEGORIES
  {
    forall c ensures CategoryName(c) in SCHEMA_CATEGORIES {
      match c
      case Starter => assert SCHEMA_CATEGORIES[0] == CategoryName(c);
      case WorkflowKit => assert SCHEMA_CATEGORIES[1] == CategoryName(c);
      case Extension => assert SCHEMA_CATEGORIES[2] == CategoryName(c);
      case Launchable => assert SCHEMA_CATEGORIES[3] == CategoryName(c);
      case ContextPack => assert SCHEMA_CATEGORIES[4] == CategoryName(c);
      case Blueprint => assert SCHEMA_CATEGORIES[5] == CategoryName(c);
    }
  }

  /** The schema's license enum accepts exactly the three license names. */
  lemma SchemaLicensesMatchType()
    ensures forall s :: s in SCHEMA_LICENSES <==> ParseLicense(s).Some?
  {
    forall l ensures LicenseName(l) in SCHEMA_LICENSES {
      match l
      case Personal => assert SCHEMA_LICENSES[0] == LicenseName(l);
      case Commercial => assert SCHEMA_LICENSES[1] == LicenseName(l);
      case TeamLicense => assert SCHEMA_LICENSES[2] == LicenseName(l);
    }
  }

  /** The schema's tag enum accepts exactly the eleven compatibility tag names. */
  lemma SchemaTagsMatchType()
    ensures |SCHEMA_TAGS| == 11
    ensures forall s :: s in SCHEMA_TAGS <==> ParseTag(s).Some?
    ensures forall t :: TagName(t) in SCHEMA_TAGS
  {
    forall t ensures TagName(t) in SCHEMA_TAGS {
      match t
      case Claude45 => assert SCHEMA_TAGS[0] == TagName(t);
      case Claude4 => assert SCHEMA_TAGS[1] == TagName(t);
      case Gpt45 => assert SCHEMA_TAGS[2] == TagName(t);
      case Gpt4 => assert SCHEMA_TAGS[3] == TagName(t);
      case Gemini2 => assert SCHEMA_TAGS[4] == TagName(t);
      case Cursor => assert SCHEMA_TAGS[5] == TagName(t);
      case Windsurf => assert SCHEMA_TAGS[6] == TagName(t);
      case V0 => assert SCHEMA_TAGS[7] == TagName(t);
      case Bolt => assert SCHEMA_TAGS[8] == TagName(t);
      case Lovable => assert SCHEMA_TAGS[9] == TagName(t);
      case Replit => assert SCHEMA_TAGS[10] == TagName(t);
    }
  }

  /** The create schema accepts an input exactly when every required field is
      present and each field meets its constraint: title 3..100 characters,
      description at least 20, short description absent, empty or at most 160,
      a known category, a whole price in [100, 99900] cents, a known license if
      given and known tags if given. */
  lemma CreateAcceptsExactly(i: ProductInput)
    ensures ParseCreate(i).Valid? <==>
      && i.title.Some? && TitleOk(i.title.value)
      && i.description_md.Some? && DescriptionOk(i.description_md.value)
      && ShortDescriptionOk(i.short_description)
      && i.category.Some? && ParseCategory(i.category.value).Some?
      && i.price.Some? && PriceOk(i.price.value)
      && (i.license_type.Some? ==> ParseLicense(i.license_type.value).Some?)
      && (i.compatibility_tags.Some? ==> forall k :: 0 <= k < |i.compatibility_tags.value| ==>
            ParseTag(i.compatibility_tags.value[k]).Some?)
  {
    SchemaCategoriesMatchType();
    SchemaLicensesMatchType();
    SchemaTagsMatchType();
  }

  /** The update schema checks only the fields that are present, with the same
      constraints as the create schema. */
  lemma UpdateAcceptsExactly(i: ProductInput)
    ensures ParseUpdate(i).Valid? <==>
      && (i.title.Some? ==> TitleOk(i.title.value))
      && (i.description_md.Some? ==> DescriptionOk(i.description_md.value))
      && ShortDescriptionOk(i.short_description)
      && (i.category.Some? ==> ParseCategory(i.category.value).Some?)
      && (i.price.Some? ==> PriceOk(i.price.value))
      && (i.license_type.Some? ==> ParseLicense(i.license_type.value).Some?)
      && (i.compatibility_tags.Some? ==> forall k :: 0 <= k < |i.compatibility_tags.value| ==>
            ParseTag(i.compatibility_tags.value[k]).Some?)
  {
    SchemaCategoriesMatchType();
    SchemaLicensesMatchType();
    SchemaTagsMatchType();
  }

  /** A created product carries what the seller sent: the same title,
      description and short description, the category and license named by the
      input's strings, and the price the input gave, as whole cents. */
  lemma CreateKeepsInput(i: ProductInput)
    requires ParseCreate(i).Valid?
    ensures var d := ParseCreate(i).value;
      && i.title == Some(d.title) && i.description_md == Some(d.description_md)
      && d.short_description == i.short_description
      && i.category == Some(CategoryName(d.category))
      && i.price == Some(d.price as real)
      && (i.license_type.Some? ==> i.license_type == Some(LicenseName(d.license_type)))
  {
    CreateAcceptsExactly(i);
  }

  /** A patch carries exactly the fields the seller sent: each is present iff
      the input's is, and then holds the input's value (the enumerations parsed
      from their names, the price as whole cents, the tags in order). */
  lemma UpdateKeepsInput(i: ProductInput)
    requires ParseUpdate(i).Valid?
    ensures var p := ParseUpdate(i).value;
      && p.title == i.title && p.description_md == i.description_md
      && p.short_description == i.short_description
      && p.category.Some? == i.category.Some?
      && (p.category.Some? ==> CategoryName(p.category.value) == i.category.value)
      && p.price.Some? == i.price.Some?
      && (p.price.Some? ==> p.price.value as real == i.price.value)
      && p.license_type.Some? == i.license_type.Some?
      && (p.license_type.Some? ==> LicenseName(p.license_type.value) == i.license_type.value)
      && p.compatibility_tags.Some? == i.compatibility_tags.Some?
      && (p.compatibility_tags.Some? ==>
            |p.compatibility_tags.value| == |i.compatibility_tags.value|
            && forall k :: 0 <= k < |i.compatibility_tags.value| ==>
                 TagName(p.compatibility_tags.value[k]) == i.compatibility_tags.value[k])
  {
    UpdateAcceptsExactly(i);
  }

  /** Whatever the create schema accepts, the update schema accepts too, and the
      patch it yields carries every field the input supplied, with the same value
      the created product gets. */
  lemma CreateImpliesUpdate(i: ProductInput)
    requires ParseCreate(i).Valid?
    ensures ParseUpdate(i).Valid?
    ensures var d, p := ParseCreate(i).value, ParseUpdate(i).value;
      p.title == Some(d.title) && p.description_md == Some(d.description_md)
      && p.category == Some(d.category) && p.price == Some(d.price)
      && p.short_description == d.short_description
      && (i.license_type.Some? ==> p.license_type == Some(d.license_type))
      && (i.compatibility_tags.Some? ==> p.compatibility_tags == Some(d.compatibility_tags))
  {
    CreateAcceptsExactly(i);
    UpdateAcceptsExactly(i);
  }

  /** Defaults of the create schema: the license is personal and the tag list is
      empty when absent; duplicate tags are kept, in order, not rejected. */
  lemma CreateDefaults(i: ProductInput)
    requires ParseCreate(i).Valid?
    ensures i.license_type.None? ==> ParseCreate(i).value.license_type == Personal
    ensures i.compatibility_tags.None? ==> ParseCreate(i).value.compatibility_tags == []
    ensures i.compatibility_tags.Some? ==>
      |ParseCreate(i).value.compatibility_tags| == |i.compatibility_tags.value|
      && forall k :: 0 <= k < |i.compatibility_tags.value| ==>
           TagName(ParseCreate(i).value.compatibility_tags[k]) == i.compatibility_tags.value[k]
    ensures ParseCreate(i).value.price as real == i.price.value
  {
  }

  /** An invalid title is always the reported problem, whatever else is wrong:
      the title is the schema's first field. */
  lemma TitleReportedFirst(i: ProductInput, partial: bool)
    requires i.title.Some? && !TitleOk(i.title.value)
    ensures Issues(i, partial) != []
    ensures Issues(i, partial)[0].message ==
      if |i.title.value| < 3 then MSG_TITLE_MIN else MSG_TITLE_MAX
  {
  }

  /** A price that is fractional is reported as such before its range. */
  lemma FractionalPriceReportedBeforeRange(p: real)
    requires p != p.Floor as real
    ensures PriceIssues(Some(p), false)[0].message == MSG_PRICE_INT
  {
  }
}
