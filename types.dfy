/** The marketplace's enumerations and record shapes. Each enumeration is a
    datatype together with its wire name (the string the database and the
    forms use) and the inverse reading of a wire name, so that code which
    receives raw strings (request bodies, query parameters, database rows) can
    be modelled faithfully. */
module Types {
  import opened Common

  datatype Category = Starter | WorkflowKit | Extension | Launchable | ContextPack | Blueprint
  datatype QualityTier = Unverified | Verified | Pick | Gold
  datatype LicenseType = Personal | Commercial | TeamLicense
  datatype ProductStatus = Draft | InReview | Published | Archived
  datatype CompatibilityTag =
    Claude45 | Claude4 | Gpt45 | Gpt4 | Gemini2 | Cursor | Windsurf | V0 | Bolt | Lovable | Replit
  datatype SellerTier = Free | Pro | Team
  datatype UserRole = Buyer | Seller | Both

  const ALL_CATEGORIES: seq<Category> := [Starter, WorkflowKit, Extension, Launchable, ContextPack, Blueprint]
  const ALL_QUALITY_TIERS: seq<QualityTier> := [Unverified, Verified, Pick, Gold]
  const ALL_LICENSES: seq<LicenseType> := [Personal, Commercial, TeamLicense]
  const ALL_STATUSES: seq<ProductStatus> := [Draft, InReview, Published, Archived]
  const ALL_TAGS: seq<CompatibilityTag> :=
    [Claude45, Claude4, Gpt45, Gpt4, Gemini2, Cursor, Windsurf, V0, Bolt, Lovable, Replit]
  const ALL_SELLER_TIERS: seq<SellerTier> := [Free, Pro, Team]

  function CategoryName(c: Category): string {
    match c
    case Starter => "starter"
    case WorkflowKit => "workflow_kit"
    case Extension => "extension"
    case Launchable => "launchable"
    case ContextPack => "context_pack"
    case Blueprint => "blueprint"
  }

  function ParseCategory(s: string): (r: Option<Category>)
    ensures r.Some? ==> CategoryName(r.value) == s
    ensures forall c :: CategoryName(c) == s ==> r == Some(c)
  {
    if s == "starter" then Some(Starter)
    else if s == "workflow_kit" then Some(WorkflowKit)
    else if s == "extension" then Some(Extension)
    else if s == "launchable" then Some(Launchable)
    else if s == "context_pack" then Some(ContextPack)
    else if s == "blueprint" then Some(Blueprint)
    else None
  }

  function QualityTierName(q: QualityTier): string {
    match q
    case Unverified => "unverified"
    case Verified => "verified"
    case Pick => "pick"
    case Gold => "gold"
  }

  function LicenseName(l: LicenseType): string {
    match l
    case Personal => "personal"
    case Commercial => "commercial"
    case TeamLicense => "team"
  }

  function ParseLicense(s: string): (r: Option<LicenseType>)
    ensures r.Some? ==> LicenseName(r.value) == s
    ensures forall l :: LicenseName(l) == s ==> r == Some(l)
  {
    if s == "personal" then Some(Personal)
    else if s == "commercial" then Some(Commercial)
    else if s == "team" then Some(TeamLicense)
    else None
  }

  function StatusName(st: ProductStatus): string {
    match st
    case Draft => "draft"
    case InReview => "in_review"
    case Published => "published"
    case Archived => "archived"
  }

  function ParseStatus(s: string): (r: Option<ProductStatus>)
    ensures r.Some? ==> StatusName(r.value) == s
    ensures forall st :: StatusName(st) == s ==> r == Some(st)
  {
    if s == "draft" then Some(Draft)
    else if s == "in_review" then Some(InReview)
    else if s == "published" then Some(Published)
    else if s == "archived" then Some(Archived)
    else None
  }

  function TagName(t: CompatibilityTag): string {
    match t
    case Claude45 => "claude_4.5"
    case Claude4 => "claude_4"
    case Gpt45 => "gpt_4.5"
    case Gpt4 => "gpt_4"
    case Gemini2 => "gemini_2"
    case Cursor => "cursor"
    case Windsurf => "windsurf"
    case V0 => "v0"
    case Bolt => "bolt"
    case Lovable => "lovable"
    case Replit => "replit"
  }

  function ParseTag(s: string): (r: Option<CompatibilityTag>)
    ensures r.Some? ==> TagName(r.value) == s
    ensures forall t :: TagName(t) == s ==> r == Some(t)
  {
    if s == "claude_4.5" then Some(Claude45)
    else if s == "claude_4" then Some(Claude4)
    else if s == "gpt_4.5" then Some(Gpt45)
    else if s == "gpt_4" then Some(Gpt4)
    else if s == "gemini_2" then Some(Gemini2)
    else if s == "cursor" then Some(Cursor)
    else if s == "windsurf" then Some(Windsurf)
    else if s == "v0" then Some(V0)
    else if s == "bolt" then Some(Bolt)
    else if s == "lovable" then Some(Lovable)
    else if s == "replit" then Some(Replit)
    else None
  }

  function SellerTierName(t: SellerTier): string {
    match t
    case Free => "free"
    case Pro => "pro"
    case Team => "team"
  }

  function ParseSellerTier(s: string): (r: Option<SellerTier>)
    ensures r.Some? ==> SellerTierName(r.value) == s
    ensures forall t :: SellerTierName(t) == s ==> r == Some(t)
  {
    if s == "free" then Some(Free)
    else if s == "pro" then Some(Pro)
    else if s == "team" then Some(Team)
    else None
  }

  /** Every enumeration lists each of its values exactly once: six categories,
      four statuses, eleven compatibility tags, three seller tiers, three
      licenses and four quality tiers. */
  lemma EnumerationsComplete()
    ensures |ALL_CATEGORIES| == 6 && forall c: Category :: c in ALL_CATEGORIES
    ensures |ALL_STATUSES| == 4 && forall s: ProductStatus :: s in ALL_STATUSES
    ensures |ALL_TAGS| == 11 && forall t: CompatibilityTag :: t in ALL_TAGS
    ensures |ALL_SELLER_TIERS| == 3 && forall t: SellerTier :: t in ALL_SELLER_TIERS
    ensures |ALL_LICENSES| == 3 && forall l: LicenseType :: l in ALL_LICENSES
    ensures |ALL_QUALITY_TIERS| == 4 && forall q: QualityTier :: q in ALL_QUALITY_TIERS
    ensures forall i, j :: 0 <= i < j < |ALL_CATEGORIES| ==> ALL_CATEGORIES[i] != ALL_CATEGORIES[j]
    ensures forall i, j :: 0 <= i < j < |ALL_STATUSES| ==> ALL_STATUSES[i] != ALL_STATUSES[j]
    ensures forall i, j :: 0 <= i < j < |ALL_TAGS| ==> ALL_TAGS[i] != ALL_TAGS[j]
    ensures forall i, j :: 0 <= i < j < |ALL_SELLER_TIERS| ==> ALL_SELLER_TIERS[i] != ALL_SELLER_TIERS[j]
  {
    forall c: Category ensures c in ALL_CATEGORIES {
      match c
      case Starter => assert ALL_CATEGORIES[0] == c;
      case WorkflowKit => assert ALL_CATEGORIES[1] == c;
      case Extension => assert ALL_CATEGORIES[2] == c;
      case Launchable => assert ALL_CATEGORIES[3] == c;
      case ContextPack => assert ALL_CATEGORIES[4] == c;
      case Blueprint => assert ALL_CATEGORIES[5] == c;
    }
    forall s: ProductStatus ensures s in ALL_STATUSES {
      match s
      case Draft => assert ALL_STATUSES[0] == s;
      case InReview => assert ALL_STATUSES[1] == s;
      case Published => assert ALL_STATUSES[2] == s;
      case Archived => assert ALL_STATUSES[3] == s;
    }
    forall t: CompatibilityTag ensures t in ALL_TAGS {
      match t
      case Claude45 => assert ALL_TAGS[0] == t;
      case Claude4 => assert ALL_TAGS[1] == t;
      case Gpt45 => assert ALL_TAGS[2] == t;
      case Gpt4 => assert ALL_TAGS[3] == t;
      case Gemini2 => assert ALL_TAGS[4] == t;
      case Cursor => assert ALL_TAGS[5] == t;
      case Windsurf => assert ALL_TAGS[6] == t;
      case V0 => assert ALL_TAGS[7] == t;
      case Bolt => assert ALL_TAGS[8] == t;
      case Lovable => assert ALL_TAGS[9] == t;
      case Replit => assert ALL_TAGS[10] == t;
    }
    forall t: SellerTier ensures t in ALL_SELLER_TIERS {
      match t
      case Free => assert ALL_SELLER_TIERS[0] == t;
      case Pro => assert ALL_SELLER_TIERS[1] == t;
      case Team => assert ALL_SELLER_TIERS[2] == t;
    }
    forall l: LicenseType ensures l in ALL_LICENSES {
      match l
      case Personal => assert ALL_LICENSES[0] == l;
      case Commercial => assert ALL_LICENSES[1] == l;
      case TeamLicense => assert ALL_LICENSES[2] == l;
    }
    forall q: QualityTier ensures q in ALL_QUALITY_TIERS {
      match q
      case Unverified => assert ALL_QUALITY_TIERS[0] == q;
      case Verified => assert ALL_QUALITY_TIERS[1] == q;
      case Pick => assert ALL_QUALITY_TIERS[2] == q;
      case Gold => assert ALL_QUALITY_TIERS[3] == q;
    }
  }

  /** A product row. `short_description`, `currency` and the two counters may
      be null in the database and every consumer guards them; `seller_tier`
      of a profile is kept as the raw column value for the same reason. */
  datatype Product = Product(
    id: Id,
    seller_id: Id,
    title: string,
    slug: string,
    description_md: string,
    short_description: Option<string>,
    category: Category,
    price: int,                       // minor currency units (cents)
    currency: Option<string>,
    license_type: LicenseType,
    compatibility_tags: seq<CompatibilityTag>,
    status: ProductStatus,
    featured: bool,
    purchase_count: Option<int>,
    view_count: Option<int>)

  /** A row of `product_files`; `file_size` may be null. */
  datatype ProductFile = ProductFile(
    id: Id,
    product_id: Id,
    file_name: string,
    file_path: string,
    file_size: Option<int>,
    file_type: Option<string>,
    is_preview: bool)

  /** A row of `profiles`. */
  datatype Profile = Profile(
    id: Id,
    username: string,
    display_name: Option<string>,
    bio: Option<string>,
    website: Option<string>,
    role: UserRole,
    seller_tier: string,
    stripe_connect_id: Option<string>,
    stripe_connect_onboarded: bool)

  /** A row of `purchases`; `seller_payout` is read with a null guard. */
  datatype Purchase = Purchase(
    id: Id,
    buyer_id: Id,
    product_id: Id,
    amount: int,
    platform_fee: int,
    seller_payout: Option<int>)
}
