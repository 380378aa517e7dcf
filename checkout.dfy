/** The checkout endpoint: an ordered chain of guards over a read-only view of
    the database, the platform fee computed from the seller's tier, and the
    request for a hosted checkout session. The payment provider's answer is a
    parameter; everything else is a function of the signed-in user, the
    request body and the database. */
module Checkout {
  import opened Common
  import opened Types
  import Constants
  import Strings

  datatype User = User(id: Id, email: string)

  /** What the handler reads: products, profiles (joined as the seller), the
      purchases as (buyer, product) pairs, and whether either query failed. */
  datatype Snapshot = Snapshot(
    products: map<Id, Product>,
    profiles: map<Id, Profile>,
    purchases: set<(Id, Id)>,
    productQueryFailed: bool,
    purchaseQueryFailed: bool)

  /** The `metadata` bag attached to the session and to the payment. */
  datatype Metadata = Metadata(product_id: Id, buyer_id: Id, seller_id: Id, platform_fee: string)

  /** The checkout-session request sent to the payment provider. */
  datatype SessionRequest = SessionRequest(
    customerEmail: string,
    currency: string,
    name: string,
    description: string,
    unitAmount: int,
    quantity: nat,
    applicationFee: int,
    destination: string,
    paymentMetadata: Metadata,
    sessionMetadata: Metadata,
    cancelPath: string)

  /** The guard chain's verdict: a typed rejection, an unhandled fault, or a
      session to request. */
  datatype Decision = Reject(status: nat, message: string) | Fault | Request(session: SessionRequest)

  /** What the provider does with a session request: a hosted URL, or an error
      (`message` is absent when what was thrown is not an `Error`). */
  datatype ProviderOutcome = SessionUrl(url: Option<string>) | ProviderFailed(message: Option<string>)

  datatype Body = ErrorBody(error: string) | UrlBody(url: Option<string>) | NoBody
  datatype Response = Response(status: nat, body: Body)

  const MSG_NOT_AUTHENTICATED := "Not authenticated"
  const MSG_INVALID_ID := "Invalid product ID"
  const MSG_NOT_FOUND := "Product not found"
  const MSG_ALREADY_OWNED := "You already own this product"
  const MSG_SELLER_NOT_READY := "Seller has not completed Stripe setup"
  const MSG_PROVIDER_DEFAULT := "Failed to create checkout session"
  const DEFAULT_DESCRIPTION := "AI product on feever.co"

  predicate IsHex(c: char) { '0' <= c <= '9' || 'a' <= c <= 'f' || 'A' <= c <= 'F' }

  /** The schema library's UUID format: 8-4-4-4-12 hexadecimal digits. */
  predicate IsUuid(s: string) {
    && |s| == 36
    && forall k :: 0 <= k < 36 ==>
         if k in {8, 13, 18, 23} then s[k] == '-' else IsHex(s[k])
  }

  /** The fee percentage of a seller tier as stored on the profile; a tier with
      no entry in the table is charged as the free tier. Tier strings naming an
      inherited object property are not told apart from other unknown tiers. */
  function FeePct(rawTier: string): (pct: nat)
    ensures pct <= 100
    ensures ParseSellerTier(rawTier).Some? ==> pct == Constants.PLATFORM_FEE_PCT[ParseSellerTier(rawTier).value]
    ensures ParseSellerTier(rawTier).None? ==> pct == 20
  {
    match ParseSellerTier(rawTier)
    case Some(t) => Constants.PLATFORM_FEE_PCT[t]
    case None => Constants.PLATFORM_FEE_PCT[Free]
  }

  /** `Math.round(x)`: the nearest integer, halves rounded up. */
  function Round(x: real): int {
    (x + 0.5).Floor
  }

  /** The platform fee in integer arithmetic. */
  function PlatformFee(price: int, pct: nat): int {
    (price * pct + 50) / 100
  }

  /** The integer formula is exactly `Math.round(price * pct / 100)`. */
  lemma PlatformFeeIsRounded(price: int, pct: nat)
    ensures PlatformFee(price, pct) == Round((price * pct) as real / 100.0)
  {
    var n := price * pct;
    var q := (n + 50) / 100;
    assert q * 100 <= n + 50 < q * 100 + 100;
    var x := n as real / 100.0 + 0.5;
    assert x == (n + 50) as real / 100.0;
    assert q as real <= x;
    assert x < (q + 1) as real;
  }

  /** For a non-negative price and a percentage, the fee is within [0, price],
      so the seller's payout `price - fee` is never negative. */
  lemma FeeWithinPrice(price: int, pct: nat)
    requires price >= 0 && pct <= 100
    ensures 0 <= PlatformFee(price, pct) <= price
  {
    assert price * pct <= price * 100;
  }

  /** The worked examples: 2900 cents at the free tier gives a fee of 580
      (payout 2320), at the team tier 232 (payout 2668). */
  lemma FeeExamples()
    ensures PlatformFee(2900, FeePct("free")) == 580 && 2900 - PlatformFee(2900, FeePct("free")) == 2320
    ensures PlatformFee(2900, FeePct("team")) == 232 && 2900 - PlatformFee(2900, FeePct("team")) == 2668
    ensures PlatformFee(2900, FeePct("pro")) == 348
    ensures FeePct("enterprise") == 20
  {
  }

  /** Whether the seller profile can receive payouts: a (non-empty) connected
      account id and a completed onboarding. */
  predicate SellerReady(s: Profile) {
    s.stripe_connect_id.Some? && s.stripe_connect_id.value != "" && s.stripe_connect_onboarded
  }

  function Meta(pid: Id, buyer: Id, seller: Id, fee: int): Metadata {
    Metadata(pid, buyer, seller, Strings.IntString(fee))
  }

  /** The guard chain of `POST`: authentication, UUID, published product,
      not already owned, seller onboarded; then the session request. */
  function Decide(user: Option<User>, productId: Option<string>, db: Snapshot): Decision {
    if user.None? then Reject(401, MSG_NOT_AUTHENTICATED)
    else if productId.None? || !IsUuid(productId.value) then Reject(400, MSG_INVALID_ID)
    else
      var pid := productId.value;
      if db.productQueryFailed || pid !in db.products || db.products[pid].status != Published then
        Reject(404, MSG_NOT_FOUND)
      else if !db.purchaseQueryFailed && (user.value.id, pid) in db.purchases then
        Reject(400, MSG_ALREADY_OWNED)
      else
        var p := db.products[pid];
        if p.seller_id !in db.profiles then Fault   // the joined seller is null: a TypeError
        else
          var seller := db.profiles[p.seller_id];
          if !SellerReady(seller) then
            Reject(400, MSG_SELLER_NOT_READY)
          else
            var fee := PlatformFee(p.price, FeePct(seller.seller_tier));
            var meta := Meta(pid, user.value.id, p.seller_id, fee);
            Request(SessionRequest(
              user.value.email,
              p.currency.GetOr("usd"),
              p.title,
              p.short_description.GetOr(DEFAULT_DESCRIPTION),
              p.price,
              1,
              fee,
              seller.stripe_connect_id.value,
              meta,
              meta,
              "/product/" + p.slug))
  }

  /** The response of `POST` once the provider has answered any session request. */
  function Post(user: Option<User>, productId: Option<string>, db: Snapshot, provider: ProviderOutcome): Response {
    match Decide(user, productId, db)
    case Reject(status, message) => Response(status, ErrorBody(message))
    case Fault => Response(500, NoBody)
    case Request(_) =>
      match provider
      case SessionUrl(url) => Response(200, UrlBody(url))
      case ProviderFailed(message) => Response(500, ErrorBody(message.GetOr(MSG_PROVIDER_DEFAULT)))
  }

  // ---- Properties ----

  /** Without a signed-in user the answer is 401, whatever the body, database or provider. */
  lemma UnauthenticatedIs401(productId: Option<string>, db: Snapshot, provider: ProviderOutcome)
    ensures Post(None, productId, db, provider) == Response(401, ErrorBody(MSG_NOT_AUTHENTICATED))
  {
  }

  /** A product id that is not a UUID is a 400 before the database is consulted. */
  lemma MalformedIdIs400(user: User, productId: Option<string>, db: Snapshot, provider: ProviderOutcome)
    requires productId.None? || !IsUuid(productId.value)
    ensures Post(Some(user), productId, db, provider) == Response(400, ErrorBody(MSG_INVALID_ID))
  {
  }

  /** A missing or unpublished product (or a failed product query) is a 404. */
  lemma UnpublishedIs404(user: User, pid: Id, db: Snapshot, provider: ProviderOutcome)
    requires IsUuid(pid)
    requires db.productQueryFailed || pid !in db.products || db.products[pid].status != Published
    ensures Post(Some(user), Some(pid), db, provider) == Response(404, ErrorBody(MSG_NOT_FOUND))
  {
  }

  /** An existing purchase is reported before the seller is looked at, whatever
      the seller's onboarding state or profile. */
  lemma OwnedCheckedBeforeSeller(user: User, pid: Id, db: Snapshot, profiles: map<Id, Profile>, provider: ProviderOutcome)
    requires IsUuid(pid) && !db.productQueryFailed && pid in db.products && db.products[pid].status == Published
    requires !db.purchaseQueryFailed && (user.id, pid) in db.purchases
    ensures Post(Some(user), Some(pid), db.(profiles := profiles), provider) == Response(400, ErrorBody(MSG_ALREADY_OWNED))
  {
  }

  /** A session is requested exactly when every guard passes: a user, a UUID, a
      published product, no recorded purchase (a failed purchase query counts
      as none), and a seller profile with a payout account that is onboarded. */
  lemma SessionRequestedIff(user: Option<User>, productId: Option<string>, db: Snapshot)
    ensures Decide(user, productId, db).Request? <==>
      && user.Some? && productId.Some? && IsUuid(productId.value)
      && !db.productQueryFailed && productId.value in db.products
      && db.products[productId.value].status == Published
      && (db.purchaseQueryFailed || (user.value.id, productId.value) !in db.purchases)
      && db.products[productId.value].seller_id in db.profiles
      && SellerReady(db.profiles[db.products[productId.value].seller_id])
  {
  }

  /** The session charges the product's price once, sends the payout to the
      seller's account, keeps the tier's rounded fee, and carries the same
      product, buyer, seller and fee in both metadata bags; the fee in the
      metadata reads back as the fee charged. */
  lemma SessionShape(user: User, pid: Id, db: Snapshot)
    requires Decide(Some(user), Some(pid), db).Request?
    ensures var s := Decide(Some(user), Some(pid), db).session;
      var p := db.products[pid];
      var seller := db.profiles[p.seller_id];
      && s.unitAmount == p.price && s.quantity == 1
      && s.applicationFee == Round((p.price * FeePct(seller.seller_tier)) as real / 100.0)
      && s.destination == seller.stripe_connect_id.value
      && s.paymentMetadata == s.sessionMetadata
      && s.sessionMetadata.product_id == pid && s.sessionMetadata.buyer_id == user.id
      && s.sessionMetadata.seller_id == p.seller_id
      && Strings.ParseInt(s.sessionMetadata.platform_fee) == s.applicationFee
      && (p.price >= 0 ==> 0 <= s.applicationFee <= p.price)
  {
    var p := db.products[pid];
    var pct := FeePct(db.profiles[p.seller_id].seller_tier);
    PlatformFeeIsRounded(p.price, pct);
    Strings.IntStringRoundTrip(PlatformFee(p.price, pct));
    if p.price >= 0 {
      FeeWithinPrice(p.price, pct);
    }
  }

  /** A provider failure is a 500 carrying the provider's message. */
  lemma ProviderFailureIs500(user: User, pid: Id, db: Snapshot, message: Option<string>)
    requires Decide(Some(user), Some(pid), db).Request?
    ensures Post(Some(user), Some(pid), db, ProviderFailed(message))
      == Response(500, ErrorBody(message.GetOr(MSG_PROVIDER_DEFAULT)))
  {
  }
}
