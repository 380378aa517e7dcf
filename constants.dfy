/** The application's lookup tables: display data per category, compatibility
    tag and quality tier, the categories offered at launch, and the platform
    fee percentage per seller tier. Each table is a map keyed by its
    enumeration, so "one entry per value" is a statement about its key set. */
module Constants {
  import opened Types

  datatype CategoryInfo = CategoryInfo(labelText: string, description: string)
  datatype TagInfo = TagInfo(labelText: string, icon: string)
  datatype TierInfo = TierInfo(labelText: string, color: string)

  const CATEGORIES: map<Category, CategoryInfo> := map[
    Starter := CategoryInfo("AI-Ready Starters", "Scaffolded codebases optimized for AI-assisted continuation"),
    WorkflowKit := CategoryInfo("AI Workflow Kits", "Multi-step prompt systems that produce repeatable, professional results"),
    Extension := CategoryInfo("AI Extensions", "Plug-and-play capabilities for AI tools \U{2014} MCP servers, skills, and configs"),
    Launchable := CategoryInfo("Launchables", "Complete, deployed products you can customize and own"),
    ContextPack := CategoryInfo("Context Packs", "Domain-specific knowledge bundles that make AI an expert"),
    Blueprint := CategoryInfo("Automation Blueprints", "Tested multi-step pipelines connecting AI tools, APIs, and services")
  ]

  const LAUNCH_CATEGORIES: seq<Category> := [Starter, WorkflowKit, Extension]

  const COMPATIBILITY_TAGS: map<CompatibilityTag, TagInfo> := map[
    Claude45 := TagInfo("Claude 4.5", "anthropic"),
    Claude4 := TagInfo("Claude 4", "anthropic"),
    Gpt45 := TagInfo("GPT-4.5", "openai"),
    Gpt4 := TagInfo("GPT-4", "openai"),
    Gemini2 := TagInfo("Gemini 2", "google"),
    Cursor := TagInfo("Cursor", "cursor"),
    Windsurf := TagInfo("Windsurf", "windsurf"),
    V0 := TagInfo("v0", "vercel"),
    Bolt := TagInfo("Bolt", "bolt"),
    Lovable := TagInfo("Lovable", "lovable"),
    Replit := TagInfo("Replit", "replit")
  ]

  const QUALITY_TIERS: map<QualityTier, TierInfo> := map[
    Unverified := TierInfo("Unverified", "gray"),
    Verified := TierInfo("Verified", "blue"),
    Pick := TierInfo("feever Pick", "orange"),
    Gold := TierInfo("feever Gold", "amber")
  ]

  /** Percentage of the sale price the marketplace keeps, per seller tier. */
  const PLATFORM_FEE_PCT: map<SellerTier, nat> := map[Free := 20, Pro := 12, Team := 8]

  /** The fee table has exactly one entry per seller tier; every percentage is
      a percentage, and a higher tier always pays strictly less. */
  lemma FeeTableShape()
    ensures PLATFORM_FEE_PCT.Keys == set t: SellerTier | t in ALL_SELLER_TIERS
    ensures forall t :: t in PLATFORM_FEE_PCT ==> PLATFORM_FEE_PCT[t] <= 100
    ensures PLATFORM_FEE_PCT[Free] > PLATFORM_FEE_PCT[Pro] > PLATFORM_FEE_PCT[Team]
    ensures PLATFORM_FEE_PCT[Free] == 20 && PLATFORM_FEE_PCT[Pro] == 12 && PLATFORM_FEE_PCT[Team] == 8
  {
    EnumerationsComplete();
  }

  /** The display tables have exactly one entry per value of their enumeration. */
  lemma DisplayTablesTotal()
    ensures CATEGORIES.Keys == set c: Category | c in ALL_CATEGORIES
    ensures COMPATIBILITY_TAGS.Keys == set t: CompatibilityTag | t in ALL_TAGS
    ensures QUALITY_TIERS.Keys == set q: QualityTier | q in ALL_QUALITY_TIERS
  {
    EnumerationsComplete();
  }

  /** The launch categories are three distinct categories, each with display data. */
  lemma LaunchCategoriesShape()
    ensures |LAUNCH_CATEGORIES| == 3
    ensures forall i, j :: 0 <= i < j < |LAUNCH_CATEGORIES| ==> LAUNCH_CATEGORIES[i] != LAUNCH_CATEGORIES[j]
    ensures forall i :: 0 <= i < |LAUNCH_CATEGORIES| ==> LAUNCH_CATEGORIES[i] in CATEGORIES
  {
  }
}
