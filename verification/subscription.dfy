/** The `createSubscription` server action: the price table, the variables of
    `appSubscriptionCreate`, and the return URL the merchant is sent back to
    after approving the charge. */
module Subscription {
  import opened Wrappers
  import opened ShopStore
  import opened Platform
  import opened Plans
  import Text
  import Billing

  /** An entry of the price table; prices are held in cents. */
  datatype PlanDetails = PlanDetails(name: string, priceCents: nat)

  /** The key a plan has in the price table and in the return URL. */
  function Key(p: Plan): (k: string)
    ensures Text.Lower(k) == Name(p)
  {
    match p
    case Basic => "BASIC"
    case Growth => "GROWTH"
    case Pro => "PRO"
  }

  /** The price table: 10.00, 25.00 and 50.00 US dollars a month. */
  function Details(p: Plan): PlanDetails {
    match p
    case Basic => PlanDetails("Basic Plan", 1000)
    case Growth => PlanDetails("Growth Plan", 2500)
    case Pro => PlanDetails("Pro Plan", 5000)
  }

  const TrialDays := 7

  const UnverifiedCallbackPath := "/api/auth/shopify/billing/callback"
  const StatusCheckCallbackPath := "/api/auth/billing/callback"
  const ActivationCallbackPath := "/api/auth/billing"

  /** The return URL: values interpolated without encoding, the plan still
      upper-case. */
  function ReturnUrlTo(cfg: Config, path: string, shop: string, p: Plan): string {
    cfg.host + path + "?shop=" + shop + "&plan=" + Key(p)
  }

  /** The variables sent to `appSubscriptionCreate`, given the return URL. */
  function RequestWith(p: Plan, returnUrl: string): (r: SubscriptionRequest)
    ensures r.test && r.trialDays == TrialDays && r.returnUrl == returnUrl
    ensures r.name == Details(p).name
    ensures |r.lineItems| == 1 && r.lineItems[0].currencyCode == "USD"
            && r.lineItems[0].interval == Every30Days
            && r.lineItems[0].amountCents == Details(p).priceCents
  {
    SubscriptionRequest(Details(p).name, returnUrl, true, TrialDays,
                        [RecurringLineItem(Details(p).priceCents, "USD", Every30Days)])
  }

  /** What the action returns: an object holding exactly one of
      `confirmationUrl` (whose value may itself be null) and `error`. */
  datatype SubscriptionResult = Confirmation(url: Option<string>) | Failure(error: string)

  /** `data.appSubscriptionCreate`. */
  datatype CreateReply = CreateReply(userErrors: seq<string>, confirmationUrl: Option<string>)

  const ShopNotFound := "Shop not found."
  const TokenMissing := "Access token is missing for this shop."

  /** `createSubscription(plan, shopDomain)` with the return URL the action
      builds from `returnPath`. */
  function CreateSubscriptionVia(returnPath: string, p: Plan, shop: string, cfg: Config,
                                 reply: GraphQLReply<CreateReply>, fault: StoreFault, store: Store)
    : (o: ActionOutcome<SubscriptionResult>)
    ensures o.result.Confirmation? <==>
      LocateShop(fault, store, shop, ShopNotFound, Some(TokenMissing)).Ok?
      && reply.Reply? && reply.errors.None? && reply.data.userErrors == []
    ensures o.result.Confirmation? ==> o.result.url == reply.data.confirmationUrl
    ensures o.result.Failure? && LocateShop(fault, store, shop, ShopNotFound, Some(TokenMissing)).Err? ==>
      o.result.error == LocateShop(fault, store, shop, ShopNotFound, Some(TokenMissing)).message
      && o.calls == [QueryShops(shop)]
    ensures forall c :: c in o.calls && c.AdminGraphQL? ==>
      c.shop == shop && c.token != ""
      && c.operation == AppSubscriptionCreate(RequestWith(p, ReturnUrlTo(cfg, returnPath, shop, p)))
  {
    var looked := [QueryShops(shop)];
    match LocateShop(fault, store, shop, ShopNotFound, Some(TokenMissing))
    case Err(m) => ActionOutcome(Failure(m), looked)
    case Ok(i) =>
      var rec := store[i];
      var request := RequestWith(p, ReturnUrlTo(cfg, returnPath, shop, p));
      var calls := looked + [AdminGraphQL(rec.domain, rec.accessToken, AppSubscriptionCreate(request))];
      match RouteFetch(reply)
      case Err(m) => ActionOutcome(Failure(m), calls)
      case Ok(d) =>
        if |d.userErrors| > 0 then ActionOutcome(Failure(d.userErrors[0]), calls)
        else ActionOutcome(Confirmation(d.confirmationUrl), calls)
  }

  /** `createSubscription` as written: the merchant returns to the callback
      that records the plan without asking the platform. */
  function CreateSubscription(p: Plan, shop: string, cfg: Config, reply: GraphQLReply<CreateReply>,
                              fault: StoreFault, store: Store): ActionOutcome<SubscriptionResult>
  {
    CreateSubscriptionVia(UnverifiedCallbackPath, p, shop, cfg, reply, fault, store)
  }

  /** `createSubscription` returning to the status-checking callback. */
  function CreateVerifiedSubscription(p: Plan, shop: string, cfg: Config, reply: GraphQLReply<CreateReply>,
                                      fault: StoreFault, store: Store): ActionOutcome<SubscriptionResult>
  {
    CreateSubscriptionVia(StatusCheckCallbackPath, p, shop, cfg, reply, fault, store)
  }

  /** Prices rise strictly with the plan level. */
  lemma PricesFollowLevels(p: Plan, q: Plan)
    ensures Level(p) < Level(q) <==> Details(p).priceCents < Details(q).priceCents
  {
  }

  /** Every price is a whole number of dollars between 10 and 50. */
  lemma PricesInDollars(p: Plan)
    ensures Details(p).priceCents % 100 == 0 && 1000 <= Details(p).priceCents <= 5000
  {
  }

  /** The upper-case key the return URL carries is recorded, lower-cased, as
      the plan's own name, which the plan table reads back as that plan. */
  lemma ReturnPlanReadsBack(p: Plan)
    ensures Lookup(Text.Lower(Key(p))) == Some(p)
  {
    LookupName(p);
  }

  /** An unknown shop or a missing token ends the action before the platform is
      asked, with the matching message. */
  lemma SubscriptionNeedsShop(p: Plan, shop: string, cfg: Config, reply: GraphQLReply<CreateReply>, store: Store)
    requires FindFirst(store, shop).None? || store[FindFirst(store, shop).value].accessToken == ""
    ensures var o := CreateSubscription(p, shop, cfg, reply, Healthy, store);
            o.calls == [QueryShops(shop)]
            && o.result == Failure(if FindFirst(store, shop).None? then ShopNotFound else TokenMissing)
  {
  }

  /** User errors are reported by their first message. */
  lemma SubscriptionUserErrors(p: Plan, shop: string, cfg: Config, errs: seq<string>, url: Option<string>,
                               store: Store)
    requires FindFirst(store, shop).Some? && store[FindFirst(store, shop).value].accessToken != ""
    requires |errs| > 0
    ensures CreateSubscription(p, shop, cfg, Reply(None, None, CreateReply(errs, url)), Healthy, store).result
            == Failure(errs[0])
  {
  }

  /** The billing handler a return URL leads to, by its path. */
  datatype BillingRoute = UnverifiedRoute | StatusCheckRoute | ActivationRoute

  function RouteOf(cfg: Config, url: string): Option<BillingRoute> {
    if Text.StartsWith(url, cfg.host + UnverifiedCallbackPath + "?") then Some(UnverifiedRoute)
    else if Text.StartsWith(url, cfg.host + StatusCheckCallbackPath + "?") then Some(StatusCheckRoute)
    else if Text.StartsWith(url, cfg.host + ActivationCallbackPath + "?") then Some(ActivationRoute)
    else None
  }

  /** Runs the billing handler of `route`. */
  function Dispatch(route: BillingRoute, q: Billing.BillingQuery, cfg: Config,
                    status: GraphQLReply<Billing.SubscriptionNode>, activation: GraphQLReply<Billing.Activation>,
                    fault: StoreFault, store: Store): Outcome {
    match route
    case UnverifiedRoute => Billing.ConfirmUnverified(q, cfg, fault, store)
    case StatusCheckRoute => Billing.ConfirmWithStatusCheck(q, cfg, status, fault, store)
    case ActivationRoute => Billing.ConfirmWithActivation(q, cfg, activation, fault, store)
  }

  /** The query Shopify sends back to the return URL: its own values plus the
      charge id. */
  function ReturnQuery(shop: string, p: Plan, chargeId: string): Billing.BillingQuery {
    Billing.BillingQuery(Some(chargeId), Some(shop), Some(Key(p)))
  }

  lemma StartsWithPrefix(a: string, b: string)
    ensures Text.StartsWith(a + b, a)
  {
    assert (a + b)[..|a|] == a;
  }

  /** The return URL the action sends, when it gets as far as the platform. */
  function SentReturnUrl(o: ActionOutcome<SubscriptionResult>): Option<string> {
    if |o.calls| == 2 && o.calls[1].AdminGraphQL? && o.calls[1].operation.AppSubscriptionCreate?
    then Some(o.calls[1].operation.subscription.returnUrl) else None
  }

  /** For a known shop with a token, the action sends the return URL it built. */
  lemma SentUrlIsReturnUrl(returnPath: string, p: Plan, shop: string, cfg: Config,
                           reply: GraphQLReply<CreateReply>, store: Store)
    requires FindFirst(store, shop).Some? && store[FindFirst(store, shop).value].accessToken != ""
    ensures SentReturnUrl(CreateSubscriptionVia(returnPath, p, shop, cfg, reply, Healthy, store))
            == Some(ReturnUrlTo(cfg, returnPath, shop, p))
  {
  }

  /** The charge the action requests is the bought plan's, and a higher plan
      is charged strictly more than a lower one. */
  lemma ChargeFollowsPlan(returnPath: string, p: Plan, q: Plan, shop: string, cfg: Config,
                          reply: GraphQLReply<CreateReply>, fault: StoreFault, store: Store)
    ensures forall c :: c in CreateSubscriptionVia(returnPath, p, shop, cfg, reply, fault, store).calls
                        && c.AdminGraphQL? ==>
              c.operation.subscription.name == Details(p).name
              && c.operation.subscription.lineItems[0].amountCents == Details(p).priceCents
    ensures Level(p) < Level(q) <==>
              RequestWith(p, ReturnUrlTo(cfg, returnPath, shop, p)).lineItems[0].amountCents
              < RequestWith(q, ReturnUrlTo(cfg, returnPath, shop, q)).lineItems[0].amountCents
  {
    PricesFollowLevels(p, q);
  }

  /** The return URL split after the host and after the path. */
  lemma ReturnUrlShape(cfg: Config, path: string, shop: string, p: Plan)
    ensures ReturnUrlTo(cfg, path, shop, p) == cfg.host + (path + ("?" + ("shop=" + shop + "&plan=" + Key(p))))
  {
  }

  /** A URL on `path` starts with that path's prefix. */
  lemma OnPath(h: string, path: string, x: string)
    ensures Text.StartsWith(h + (path + ("?" + x)), h + path + "?")
  {
    assert h + (path + ("?" + x)) == (h + path + "?") + x;
    StartsWithPrefix(h + path + "?", x);
  }

  /** A string that differs from `p` at a position inside both does not start
      with `p`. */
  lemma DiffersAt(s: string, p: string, k: nat)
    requires k < |p| && k < |s| && s[k] != p[k]
    ensures !Text.StartsWith(s, p)
  {
    if |p| <= |s| {
      assert s[..|p|][k] == s[k];
    }
  }

  /** A URL on path `a` is not on a path `b` that differs from `a` inside both. */
  lemma OffPath(h: string, a: string, b: string, x: string, k: nat)
    requires k < |a| && k < |b| && a[k] != b[k]
    ensures !Text.StartsWith(h + (a + x), h + b + "?")
  {
    var u := h + (a + x);
    var pre := h + b + "?";
    assert u[|h| + k] == a[k];
    assert pre[|h| + k] == b[k];
    DiffersAt(u, pre, |h| + k);
  }

  /** The return URL the action builds is routed by its path. */
  lemma UnverifiedUrlRoute(p: Plan, shop: string, cfg: Config)
    ensures RouteOf(cfg, ReturnUrlTo(cfg, UnverifiedCallbackPath, shop, p)) == Some(UnverifiedRoute)
  {
    ReturnUrlShape(cfg, UnverifiedCallbackPath, shop, p);
    OnPath(cfg.host, UnverifiedCallbackPath, "shop=" + shop + "&plan=" + Key(p));
  }

  lemma StatusCheckUrlRoute(p: Plan, shop: string, cfg: Config)
    ensures RouteOf(cfg, ReturnUrlTo(cfg, StatusCheckCallbackPath, shop, p)) == Some(StatusCheckRoute)
  {
    var rest := "shop=" + shop + "&plan=" + Key(p);
    ReturnUrlShape(cfg, StatusCheckCallbackPath, shop, p);
    OnPath(cfg.host, StatusCheckCallbackPath, rest);
    assert StatusCheckCallbackPath[10] == 'b' && UnverifiedCallbackPath[10] == 's';
    OffPath(cfg.host, StatusCheckCallbackPath, UnverifiedCallbackPath, "?" + rest, 10);
  }

  /** As written, the action sends the merchant back to the unverified
      callback, which for a known shop records the plan with no platform call
      before the write. */
  lemma ReturnSkipsVerification(p: Plan, shop: string, chargeId: string, cfg: Config,
                                reply: GraphQLReply<CreateReply>, status: GraphQLReply<Billing.SubscriptionNode>,
                                activation: GraphQLReply<Billing.Activation>, store: Store)
    requires shop != "" && chargeId != ""
    requires FindFirst(store, shop).Some? && store[FindFirst(store, shop).value].accessToken != ""
    ensures var sent := SentReturnUrl(CreateSubscription(p, shop, cfg, reply, Healthy, store));
            sent.Some? && RouteOf(cfg, sent.value) == Some(UnverifiedRoute)
    ensures var o := Dispatch(UnverifiedRoute, ReturnQuery(shop, p, chargeId), cfg, status, activation, Healthy, store);
            !PersistsOnlyAfterPlatformCall(o.calls)
            && o.store[FindFirst(store, shop).value].plan == Some(Name(p))
  {
    SentUrlIsReturnUrl(UnverifiedCallbackPath, p, shop, cfg, reply, store);
    UnverifiedUrlRoute(p, shop, cfg);
    Billing.UnverifiedPersistsWithoutCheck(ReturnQuery(shop, p, chargeId), cfg, store);
  }

  /** Returning to the status-checking callback instead, the plan is recorded
      only after the platform reported the very charge ACTIVE, and then it is
      the plan that was bought. */
  lemma CorrectedReturnVerifies(p: Plan, shop: string, chargeId: string, cfg: Config,
                                reply: GraphQLReply<CreateReply>, status: GraphQLReply<Billing.SubscriptionNode>,
                                activation: GraphQLReply<Billing.Activation>, fault: StoreFault, store: Store)
    requires shop != "" && chargeId != ""
    requires FindFirst(store, shop).Some? && store[FindFirst(store, shop).value].accessToken != ""
    ensures var sent := SentReturnUrl(CreateVerifiedSubscription(p, shop, cfg, reply, Healthy, store));
            sent.Some? && RouteOf(cfg, sent.value) == Some(StatusCheckRoute)
    ensures var o := Dispatch(StatusCheckRoute, ReturnQuery(shop, p, chargeId), cfg, status, activation, fault, store);
            PersistsOnlyAfterPlatformCall(o.calls)
            && (o.store != store ==>
                  status.Reply? && status.errors.None? && Billing.IsActive(status.data)
                  && o.store[FindFirst(store, shop).value].plan == Some(Name(p)))
  {
    SentUrlIsReturnUrl(StatusCheckCallbackPath, p, shop, cfg, reply, store);
    StatusCheckUrlRoute(p, shop, cfg);
  }
}
