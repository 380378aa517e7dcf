# feever marketplace core, modelled in Dafny

feever is a marketplace where sellers list AI products (starters, workflow kits,
extensions, …), buyers pay through a hosted checkout with a platform fee taken
per seller tier, and everyone finds products through a search endpoint backed by
a search engine with a database fallback. This project models the core of that
system and proves properties of the model:

- the enumerations and lookup tables (`types.dfy`, `constants.dfy`);
- the product schema, with its creation and partial-update variants (`product_validation.dfy`);
- the seller's server actions over the products table, the file records and the
  storage bucket, as a class whose maps the actions update (`seller_actions.dfy`);
- the checkout endpoint's guard chain and fee computation (`checkout.dfy`);
- the profile update action (`account.dfy`);
- the search endpoint: parameter parsing, the engine filter string, and the
  database fallback (`search.dfy`);
- the read queries: listing with pagination, featured products, the purchase
  check, seller statistics (`queries.dfy`);
- the client components' list logic: the product form (`product_form.dfy`),
  the file uploader (`file_uploader.dfy`), the search filter panel
  (`search_filters.dfy`), the compatibility badges (`compatibility_badges.dfy`),
  and the seller's product list (`product_list.dfy`);
- the request proxy guarding `/seller` and `/account` (`proxy.dfy`).

Shared pieces live in `common.dfy` (`Option`, the `{ data } | { error }` action
result, list filtering and summing) and `strings.dfy` (JavaScript's `split`,
`join`, `trim`, `startsWith`, and integer printing and parsing).

Database tables are maps or sequences of rows. A sequence lists rows in the
order the query sorts them. Everything the code asks of an outside service
becomes a parameter of the operation:

- a write error;
- a failed ownership read (the seller actions keep only a read's data, so a failed read looks like a missing row);
- a fresh id;
- the engine's answer;
- the payment provider's answer;
- the clock;
- the URL check;
- the case-insensitive title match.

## Model

| member | source | states |
|---|---|---|
| Common.OrNull | src/app/seller/actions.ts:39 | `v \|\| null` on an optional string: null exactly for an absent or empty value, the value itself otherwise; never the empty string |
| Types.ParseCategory | src/types/product.ts:1-7 | the wire name parser is the inverse of the category names: it accepts a string exactly when some category has that name, and returns that category |
| Types.ParseLicense | src/types/product.ts:11 | the same, for the three license types |
| Types.ParseStatus | src/types/product.ts:13 | the same, for the four product statuses |
| Types.ParseTag | src/types/product.ts:15-26 | the same, for the eleven compatibility tags |
| Types.ParseSellerTier | src/types/product.ts:78 | the same, for the three seller tiers |
| Types.EnumerationsComplete | src/types/product.ts:1-26 | each enumeration list holds every value of its type: 6 categories, 4 statuses, 11 tags, 3 seller tiers |
| Constants.FeeTableShape | src/lib/utils/constants.ts:53-57 | one fee per seller tier (20, 12, 8), every fee a percentage, strictly decreasing with the tier |
| Constants.DisplayTablesTotal | src/lib/utils/constants.ts:3-51 | the category, tag and quality-tier tables have exactly one entry per value |
| Constants.LaunchCategoriesShape | src/lib/utils/constants.ts:30 | three distinct launch categories, each with display data |
| ProductValidation.ParseCreate | src/lib/validations/product.ts:3-47 | `safeParse` fails iff some field has an issue, and then reports all of them in field order |
| ProductValidation.ParseUpdate | src/lib/validations/product.ts:49 | the partial schema's `safeParse` fails iff a present field has an issue, reporting them in field order |
| ProductValidation.SchemaCategoriesMatchType | src/lib/validations/product.ts:16-23 | the schema's category enum accepts exactly the six category names |
| ProductValidation.SchemaLicensesMatchType | src/lib/validations/product.ts:29 | the license enum accepts exactly the three license names |
| ProductValidation.SchemaTagsMatchType | src/lib/validations/product.ts:30-46 | the tag enum accepts exactly the eleven tag names |
| ProductValidation.CreateAcceptsExactly | src/lib/validations/product.ts:3-47 | the create schema accepts an input iff title length is 3..100, description length ≥ 20, short description absent, empty or ≤ 160, category known, price an integer in 100..99900, license absent or known, every tag known |
| ProductValidation.UpdateAcceptsExactly | src/lib/validations/product.ts:49 | the partial schema checks only the fields present, each with the same constraint |
| ProductValidation.CreateKeepsInput | src/lib/validations/product.ts:3-47 | an accepted input's title, description and short description are stored as sent, its category and any given license are the ones its strings name, and its price is the sent amount in whole cents |
| ProductValidation.UpdateKeepsInput | src/lib/validations/product.ts:49 | the patch holds a field iff the input does, with the input's value: text as sent, enumerations named by the input's strings, the price as whole cents, the tags in order |
| ProductValidation.CreateImpliesUpdate | src/lib/validations/product.ts:3-49 | whatever the create schema accepts the update schema accepts; the patch carries the created product's title, description, category, price and short description, and its license and tags whenever the input gives them |
| ProductValidation.CreateDefaults | src/lib/validations/product.ts:29-46 | an absent license becomes personal and absent tags become the empty list; the price is kept |
| ProductValidation.TitleReportedFirst | src/lib/validations/product.ts:4-7 | a bad title is always the first issue reported, with its min or max message |
| ProductValidation.FractionalPriceReportedBeforeRange | src/lib/validations/product.ts:24-28 | a fractional price reports the whole-cents message before any range message |
| SellerActions.NewRow | src/app/seller/actions.ts:34-45 | the inserted row is a draft owned by the caller with the given id and slug; title, description, category, price, license and tags are the parsed values; the short description is null iff absent or empty and otherwise stored as given; currency is unset, the row is not featured and both counters are 0 |
| SellerActions.Patched | src/app/seller/actions.ts:82-88 | an update keeps id, owner, slug, status, currency, featured flag and counters; each of title, description, category, price, license and tags takes the patch's value when present and keeps the old one when absent; the short description is null iff absent or empty and otherwise stored as given |
| SellerActions.Store.CreateProduct | src/app/seller/actions.ts:13-53 | error for no user, then the first schema issue, then a write error; otherwise exactly one new draft row, and the step is a legal seller step |
| SellerActions.Store.UpdateProduct | src/app/seller/actions.ts:55-98 | error for no user, schema issue, failed ownership read, missing or foreign row, write error; otherwise only that row changes, to the patched row; no status guard |
| SellerActions.Store.DeleteProduct | src/app/seller/actions.ts:100-132 | error for no user, failed ownership read, missing or foreign row, published row, write error; otherwise exactly that row is removed |
| SellerActions.Store.SubmitForReview | src/app/seller/actions.ts:134-170 | error for no user, failed read, missing or foreign row, non-draft, incomplete (empty title or description, zero price), write error; otherwise only that row's status becomes in review |
| SellerActions.Store.UploadProductFile | src/app/seller/actions.ts:172-223 | checks user, fields, ownership (a failed ownership read counts as not owned); stores the object at `products/<id>/<time>-<name>`, then records it with the preview flag true only for "true"; a failed record write leaves the object stored |
| SellerActions.Store.DeleteProductFile | src/app/seller/actions.ts:225-259 | checks user and that the file's product is the caller's (a failed read counts as not found); removes the object if storage did, then the record unless the write fails |
| SellerActions.PublishedRowsPersist | src/app/seller/actions.ts:100-170 | over any run of seller actions a published product stays, still published, and nothing becomes published |
| SellerActions.ForeignRowsUntouched | src/app/seller/actions.ts:13-259 | over any run of actions by other users, a seller's rows are never changed or removed and none appears |
| Checkout.FeePct | src/app/api/stripe/checkout/route.ts:73 | the tier's fee percentage from the table, the free tier's 20 for a tier with no entry; always ≤ 100 |
| Checkout.PlatformFeeIsRounded | src/app/api/stripe/checkout/route.ts:74 | the integer fee formula equals `Math.round(price * pct / 100)` |
| Checkout.FeeWithinPrice | src/app/api/stripe/checkout/route.ts:74 | for a non-negative price the fee lies in [0, price], so the seller's payout is never negative |
| Checkout.FeeExamples | src/app/api/stripe/checkout/route.ts:73-74 | 2900 cents: fee 580 at free, 348 at pro, 232 at team; an unknown tier pays the free rate |
| Checkout.UnauthenticatedIs401 | src/app/api/stripe/checkout/route.ts:18-20 | no user gives 401, whatever else holds |
| Checkout.MalformedIdIs400 | src/app/api/stripe/checkout/route.ts:22-29 | a missing or non-UUID product id gives 400 "Invalid product ID" |
| Checkout.UnpublishedIs404 | src/app/api/stripe/checkout/route.ts:33-46 | a missing or unpublished product, or a failed query, gives 404 |
| Checkout.OwnedCheckedBeforeSeller | src/app/api/stripe/checkout/route.ts:48-70 | an existing purchase gives 400 "already own" regardless of the seller's profile |
| Checkout.SessionRequestedIff | src/app/api/stripe/checkout/route.ts:18-77 | a session is requested iff every guard passes (a failed purchase query counts as no purchase) |
| Checkout.SessionShape | src/app/api/stripe/checkout/route.ts:72-114 | the session charges the price once, pays out to the seller's account, keeps the rounded fee, and both metadata bags carry the same ids and a fee string that parses back to the fee, whatever its sign |
| Checkout.ProviderFailureIs500 | src/app/api/stripe/checkout/route.ts:117-121 | a provider failure gives 500 with its message or the default one |
| Account.Saved | src/app/account/actions.ts:40-48 | only the three profile fields change; each is null iff absent or empty, never the empty string, and a non-empty value is stored as given |
| Account.ProfileAcceptedIff | src/app/account/actions.ts:7-23 | the profile schema accepts iff display name ≤ 50, bio ≤ 500, website absent, empty or a URL; the empty and the absent input are accepted |
| Account.FirstIssueWins | src/app/account/actions.ts:7-23 | the display-name message hides every other issue, then the bio's, then the website's |
| Account.ProfileStore.UpdateProfile | src/app/account/actions.ts:25-54 | error for no user, the first issue, a write error; otherwise the caller's row (if any) is replaced by the saved profile and nothing else changes |
| Strings.Split | src/app/api/search/route.ts:15 | `split(",")` gives at least one piece and no piece contains a comma |
| Strings.JoinSplit | src/app/api/search/route.ts:15 | joining the pieces of a split with the separator gives the string back |
| Strings.SplitJoin | src/app/api/search/route.ts:15 | splitting a join of comma-free pieces gives the pieces back |
| Strings.TrimStart | src/app/api/search/route.ts:15 | `trimStart` removes exactly the leading whitespace: a suffix whose first character is not whitespace |
| Strings.TrimEnd | src/app/api/search/route.ts:15 | `trimEnd` removes exactly the trailing whitespace: a prefix whose last character is not whitespace |
| Strings.IntString | src/app/api/stripe/checkout/route.ts:103-110 | `fee.toString()` is non-empty, starts with a minus sign iff the number is negative, and is digits after the sign |
| Strings.ParseDecimalOfDecimal | src/app/api/stripe/checkout/route.ts:103-110 | the decimal digits of a natural number read back as that number |
| Strings.IntStringRoundTrip | src/app/api/stripe/checkout/route.ts:103-110 | on every integer, parsing `toString()` gives the integer back, so the metadata keeps the fee |
| Strings.Lead | src/app/api/search/route.ts:15 | the length of the leading whitespace run: all whitespace before it, a non-whitespace character at it |
| Strings.Trim | src/app/api/search/route.ts:15 | `trim` never lengthens a string and leaves no whitespace at either end |
| Strings.TrimExact | src/app/api/search/route.ts:15 | `trim` removes exactly the whitespace at both ends: after the leading run, its result is a prefix followed only by whitespace, and it starts and ends with non-whitespace |
| Search.Clean | src/app/api/search/route.ts:15 | `map(trim).filter(Boolean)` keeps at most as many entries, none empty |
| Search.CleanEntries | src/app/api/search/route.ts:15 | the cleaned list is the trimmed entries with the empty ones dropped, in order; a value is in it iff it is a non-empty trimmed entry |
| Search.CleanConcat | src/app/api/search/route.ts:15 | cleaning distributes over concatenation |
| Search.CleanOfClean | src/app/api/search/route.ts:15 | trimming and dropping blanks changes nothing in a list of already clean values |
| Search.SplitTrimmedEntries | src/app/api/search/route.ts:15 | the parsed list has no blank entry and no entry with a comma; the empty parameter parses to nothing |
| Search.SplitTrimmedOfJoin | src/app/api/search/route.ts:15 | a list of clean values sent comma-joined reads back as the same list |
| Search.CategoryFilters | src/app/api/search/route.ts:14-23 | no clause for no category, one clause for any number; a single category gives a plain equality, several give their parenthesised disjunction |
| Search.AnyOf | src/app/api/search/route.ts:19-21 | the disjunction is wrapped in parentheses; two categories give `(c0 OR c1)` clauses |
| Search.AnyOfSnoc | src/app/api/search/route.ts:19-21 | one more category adds ` OR ` and its clause just before the closing parenthesis |
| Search.TagFilters | src/app/api/search/route.ts:26-28 | one equality clause per tag, in the tags' order |
| Search.BuildFilters | src/app/api/search/route.ts:13-29 | the filter list is the category clause (if any) followed by the tag clauses |
| Search.AddCategoryClause | src/app/api/search/route.ts:14-23 | the category step appends the category clause only for a non-empty parameter |
| Search.AddTagClauses | src/app/api/search/route.ts:24-29 | the tags step appends the tag clauses only for a non-empty parameter |
| Search.PushTagClauses | src/app/api/search/route.ts:26-28 | the loop appends exactly one clause per tag, in order, after what was there |
| Search.FilterParam | src/app/api/search/route.ts:37 | no filter option iff there are no clauses; one clause is sent as it is, two are joined by ` AND ` |
| Search.FilterParamSnoc | src/app/api/search/route.ts:37 | one more clause appends ` AND ` and that clause to the filter string |
| Search.FilterLayout | src/app/api/search/route.ts:13-29 | the category clause comes first, then clause k is tag k |
| Search.QuotesAreNotEscaped | src/app/api/search/route.ts:27 | a tag value containing `" AND compatibility_tags = "` yields the same filter as two tags |
| Search.BuildFallback | src/app/api/search/route.ts:53-76 | the fallback query built step by step is the declared one |
| Search.CategoryCondSelects | src/app/api/search/route.ts:65-72 | `eq` for one category and `in` for several both mean "one of the listed categories" |
| Search.FallbackSelects | src/app/api/search/route.ts:53-76 | a product matches the fallback iff it is published, matches the title pattern, and is selected by the category and tag parameters |
| Search.FallbackResponse | src/app/api/search/route.ts:50-88 | without the engine: the hits are the first 20 matching rows in table order, each a published selected row; a matching row is missing only when all 20 places are taken; counted exactly; a failed query gives an empty response |
| Queries.BuildListQuery | src/lib/supabase/queries.ts:16-43 | the listing query built step by step is the declared one |
| Queries.Slice | src/lib/supabase/queries.ts:39-42 | an inclusive row range returns at most its width, and exactly those rows when they exist |
| Queries.PageWindow | src/lib/supabase/queries.ts:35-43 | a positive offset and page size give at most `limit ?? 20` rows, exactly that page when it exists |
| Queries.ZeroOffsetIgnored | src/lib/supabase/queries.ts:38-43 | a zero or absent offset is ignored: the first `limit` rows, or all rows |
| Queries.ZeroLimit | src/lib/supabase/queries.ts:35-43 | a zero limit means no limit without an offset but an empty page with one |
| Queries.ListedRowsArePublished | src/lib/supabase/queries.ts:16-51 | the listing is the page window of the published rows matching the filters: every listed product is one, and without limit or offset every such row is listed; with only a limit a matching row is missing only when the page is full; a failed query lists nothing |
| Queries.FeaturedFallback | src/lib/supabase/queries.ts:53-86 | at most `limit` published rows; featured ones whenever one exists, otherwise the newest published |
| Queries.CheckPurchase | src/lib/supabase/queries.ts:156-173 | true only when a matching purchase exists |
| Queries.CheckPurchaseIff | src/lib/supabase/queries.ts:156-173 | with at most one purchase per buyer and product: true iff the query succeeds and the purchase exists |
| Queries.GetSellerStats | src/lib/supabase/queries.ts:192-249 | the statistics computed step by step are the declared ones |
| Queries.StatsBounds | src/lib/supabase/queries.ts:192-249 | published ≤ total; a failed query gives zeros; no products means no views, sales or revenue; a failed purchases query means no revenue |
| Queries.StatsAdditive | src/lib/supabase/queries.ts:212-226 | counts and sums of a table split in two are the sums of the parts' |
| Queries.StatsNonNegative | src/lib/supabase/queries.ts:219-240 | with non-negative counters and payouts, views, sales and revenue are non-negative |
| ProductForm.ToggleTag | src/components/seller/product-form.tsx:63-67 | toggling flips the tag's membership, keeps every other tag's count, and appends an absent tag |
| ProductForm.ToggleTwice | src/components/seller/product-form.tsx:63-67 | toggling an absent tag twice is the identity; a present tag ends up once, at the end |
| ProductForm.PriceCheckAgreesWithSchema | src/components/seller/product-form.tsx:74-83 | the form accepts exactly the prices the schema accepts, with the same messages |
| ProductForm.SubmitDispatch | src/components/seller/product-form.tsx:76-106 | a bad price is shown without a call; create mode calls create; edit mode calls update with the product's id; edit mode with no product calls nothing |
| ProductForm.FormInputAcceptance | src/components/seller/product-form.tsx:85-93 | after the price check, the server can only reject the title, description or short description |
| FileUploader.FormatFileSize | src/components/seller/file-uploader.tsx:22-32 | "0 B" for a missing or zero size; otherwise the largest unit up to GB the size reaches, the size scaled by exactly 1024 per unit, decimals only above bytes |
| FileUploader.Removed | src/components/seller/file-uploader.tsx:81 | the files kept are exactly those with another id |
| FileUploader.Flipped | src/components/seller/file-uploader.tsx:91-95 | same files in the same order; only `is_preview` of the matching id changes |
| FileUploader.FlippedTwice | src/components/seller/file-uploader.tsx:89-97 | toggling the same file twice restores the list |
| FileUploader.FileList.HandleUpload | src/components/seller/file-uploader.tsx:47-71 | the successes before the first failure are appended in order; the first failure's message is shown |
| FileUploader.FileList.HandleDelete | src/components/seller/file-uploader.tsx:73-87 | a failed delete keeps the list and shows the error; a successful one removes the file |
| FileUploader.FileList.TogglePreview | src/components/seller/file-uploader.tsx:89-97 | flips the preview flag of the file and nothing else |
| FileUploader.UploadsOnlyAppend | src/components/seller/file-uploader.tsx:51-65 | the old list is a prefix of the new one, and place `old + k` holds the file of the k-th upload, for exactly the successes before the first failure; all of them when none fails |
| Common.WithoutIsFilter | src/components/search/search-filters.tsx:28 | `filter((c) => c !== x)` is the list with every `x` dropped and the rest in order |
| SearchFilters.CategoryToggled | src/components/search/search-filters.tsx:25-30 | checking appends (a second copy if already there), unchecking removes every copy; tags pass through |
| SearchFilters.TagToggled | src/components/search/search-filters.tsx:32-35 | the same for tags, with categories passed through |
| SearchFilters.Cleared | src/components/search/search-filters.tsx:37-39 | clearing leaves no filter |
| SearchFilters.CheckThenUncheck | src/components/search/search-filters.tsx:25-35 | checking then unchecking an unselected value restores the selection |
| SearchFilters.HasFiltersAfterToggle | src/components/search/search-filters.tsx:25-41 | after checking something there are filters; unchecking the only selected category with no tags leaves none |
| CompatibilityBadges.SliceTo | src/components/product/compatibility-badges.tsx:10 | `slice(0, end)` is a prefix, of length `end` clipped to the list, counted from the end for a negative `end` |
| CompatibilityBadges.NoLimitShowsAll | src/components/product/compatibility-badges.tsx:10-11 | no max, or max 0: every tag visible, no "+N more" chip |
| CompatibilityBadges.LimitedLayout | src/components/product/compatibility-badges.tsx:10-26 | max ≥ 1: the first min(max, len) tags; remaining is len − max; the chip shows iff len > max, and then the visible tags and the chip count add up to len |
| CompatibilityBadges.Label | src/components/product/compatibility-badges.tsx:22 | an unknown tag is labelled by its raw value |
| CompatibilityBadges.KnownTagLabel | src/components/product/compatibility-badges.tsx:16-22 | a known tag is labelled from the table |
| ProductList.FilterProducts | src/app/seller/products/product-list-client.tsx:75-76 | no status keeps the list; a status keeps exactly the products with it |
| ProductList.Count | src/app/seller/products/product-list-client.tsx:169-178 | a tab count never exceeds the total |
| ProductList.CountsPartition | src/app/seller/products/product-list-client.tsx:169-178 | the four status counts add up to the total |
| ProductList.TabCounts | src/app/seller/products/product-list-client.tsx:169-178 | draft + in review + published ≤ total, with equality iff nothing is archived |
| ProductList.ButtonsMatchServerGuards | src/app/seller/products/product-list-client.tsx:113-134 | Submit is offered iff the server would allow the submit, Delete iff it would allow the delete |
| ProductList.DeleteCall | src/app/seller/products/product-list-client.tsx:53-56 | the delete action is called with the target's id, and not at all without a target |
| Proxy.Decide | src/proxy.ts:7-47 | a redirect happens iff the path is protected and there is no user, and it goes to "/login" with `next` set to the path |
| Proxy.ProtectedIff | src/proxy.ts:5-13 | a path is protected iff it starts with "/seller" or "/account" |
| Proxy.UserOnlyMattersWhenProtected | src/proxy.ts:15-46 | an unprotected path passes through whoever asks; a signed-in user always passes through |
| Proxy.LoginNotProtected | src/proxy.ts:5-42 | "/login" is not protected, so the redirect cannot loop; "/sellers" is protected |

## Left out

- The payment webhook only checks that its signature header is present; nothing of it is modelled.
- Supabase, Stripe and Meilisearch calls are not modelled. Tables are maps or sequences of rows; provider answers are parameters. Storage is a set of object paths.
- Meilisearch's search and filter evaluation is not modelled. The engine's hits are a parameter; the model states the filter string sent to it.
- The database's `ILIKE` match is a parameter. So is Zod's URL check on the profile website.
- `slugify` and the random slug suffix are not modelled; the slug is a parameter. The clock is a parameter (`now`), and `updated_at` is not modelled.
- `revalidatePath`, `router.push`/`refresh`, `alert` and every other UI side effect are not modelled.
- The product form parses the price with `parseFloat(...) * 100` and `Math.round`. The model takes the resulting cents, with `None` for NaN.
- FileUploader.FormatFileSize: returns the scaled size, the decimal count and the unit index rather than the `toFixed` string. Float rounding is not modelled, and division by 1024 is exact on reals.
- Row columns that nothing here reads are not modelled: version, ratings, trust score, timestamps and the like. Database defaults of a new row (currency, counters, featured) are the values `NewRow` sets.
- Deleting a product does not cascade to its file records or stored objects in the model. The code does not do that either; whatever the database's foreign keys do is not modelled.
- String lengths are counted in characters, not in JavaScript's UTF-16 code units, so the two differ only outside the Basic Multilingual Plane.
- The schema library is assumed to behave as Zod 3:
  - issues are reported in key order;
  - `.optional().or(literal(""))` reports the first option's issue;
  - `.partial()` applies no defaults;
  - its UUID format is 8-4-4-4-12 hex digits.
- A request body that is not JSON makes `request.json()` throw. The model starts from an already parsed optional product id.
- Search parameters are single-valued strings (`get` returns the first value). Repeated parameters are not modelled.
- Queries: negative or fractional `limit` and `offset` values are not modelled beyond clipping a negative limit to 0.
- Queries.CheckPurchaseIff: stated only under "at most one purchase per buyer and product". With two or more rows, `maybeSingle` errors and the check answers false; CheckPurchase covers that case.
- The code's `updateProduct` has no status guard: an owner can edit a published product. The model follows the code.
- SellerActions.Store.UploadProductFile: the uploaded file's MIME type and size are taken as given, with no check on them.
- Checkout.PlatformFeeIsRounded: computed on exact rationals, while the code multiplies by the float `feePct / 100`. The two could differ only where the float product lands just off a half.
- Checkout.FeePct: a stored tier that names an inherited object property (`constructor`, `toString`, `__proto__`, …) is not nullish in the lookup, so the code computes a NaN fee for it; the model charges such a tier the free rate like any other unknown tier.
- Proxy.Decide: the matcher excludes static assets from the proxy; that is not modelled, and every path is taken to reach it. The session refresh before the check is not modelled either.
