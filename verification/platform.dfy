/** What the handlers see of the outside world: the process environment, the
    HTTP responses they return, the Admin API operations they issue, the replies
    those operations may get, and the ordered trace of external calls a request
    makes. */
module Platform {
  import opened Wrappers
  import opened ShopStore
  import UrlEncoding
  import Text

  /** The environment variables the handlers read; `None` when unset. `host` is
      NEXT_PUBLIC_HOST, taken to be an origin such as `https://app.example`. */
  datatype Config = Config(
    apiKey: Option<string>,
    apiSecret: Option<string>,
    webhookSecret: Option<string>,
    scopes: Option<string>,
    host: string,
    production: bool)

  /** JavaScript truthiness of an optional string. */
  predicate Truthy(v: Option<string>) {
    v.Some? && v.value != ""
  }

  datatype Cookie = Cookie(name: string, value: string, httpOnly: bool, secure: bool, sameSite: string, path: string)

  datatype Body = ErrorBody(error: string) | SuccessBody

  /** `Crash` is an exception that escapes the handler; the framework then
      answers with a bare 500. */
  datatype Response =
    | Json(status: nat, body: Body)
    | Redirect(location: string, cookie: Option<Cookie>)
    | Crash

  datatype Interval = Every30Days

  /** A recurring line item; the price is held in cents. */
  datatype RecurringLineItem = RecurringLineItem(amountCents: nat, currencyCode: string, interval: Interval)

  /** The variables of `appSubscriptionCreate`. */
  datatype SubscriptionRequest = SubscriptionRequest(
    name: string,
    returnUrl: string,
    test: bool,
    trialDays: nat,
    lineItems: seq<RecurringLineItem>)

  datatype DiscountValue = PercentageOff(fraction: real) | AmountOff(amount: real, currencyCode: string)

  /** The `basicCodeDiscount` variable of `discountCodeBasicCreate`. */
  datatype DiscountRequest = DiscountRequest(
    title: string,
    code: string,
    startsAt: string,
    allCustomers: bool,
    value: DiscountValue,
    allItems: bool,
    appliesOncePerCustomer: bool)

  datatype Operation =
    | SubscriptionStatusQuery(id: string)
    | AppSubscriptionActivate(id: string)
    | AppSubscriptionCreate(subscription: SubscriptionRequest)
    | DashboardQuery
    | ProductsQuery(first: nat)
    | DiscountCodesQuery(first: nat)
    | DiscountCodeBasicCreate(discount: DiscountRequest)

  /** An external interaction, in the order a request performs them. Store
      writes are recorded when attempted. */
  datatype Call =
    | ExchangeToken(shop: string, code: string)
    | FetchShopDetails(shop: string, token: string, apiVersion: string)
    | QueryShops(domain: string)
    | AddShop(record: ShopRecord)
    | UpdateShop(index: nat, record: ShopRecord)
    | DeleteShop(index: nat)
    | AdminGraphQL(shop: string, token: string, operation: Operation)

  /** What a handler returns, and the store it leaves behind. */
  datatype Outcome = Outcome(response: Response, store: Store, calls: seq<Call>)

  /** What a server action returns; actions only read the store. */
  datatype ActionOutcome<T> = ActionOutcome(result: T, calls: seq<Call>)

  /** The shop lookup the handlers and actions start with: the first record of
      the domain and, when `noToken` names the error for it, a non-empty token
      on that record. A failing read surfaces its own message. */
  function LocateShop(fault: StoreFault, store: Store, shop: string, notFound: string,
                      noToken: Option<string>): (r: Result<nat>)
    ensures r.Ok? <==> !fault.ReadFails? && FindFirst(store, shop).Some?
                       && (noToken.Some? ==> store[FindFirst(store, shop).value].accessToken != "")
    ensures r.Ok? ==> FindFirst(store, shop) == Some(r.value)
    ensures r.Err? ==>
      r.message == (if fault.ReadFails? then fault.message
                    else if FindFirst(store, shop).None? then notFound else noToken.value)
  {
    if fault.ReadFails? then Err(fault.message)
    else match FindFirst(store, shop)
      case None => Err(notFound)
      case Some(i) => if noToken.Some? && store[i].accessToken == "" then Err(noToken.value) else Ok(i)
  }

  /** The reply to an Admin API call: the request threw (network, JSON), or the
      JSON body's top-level `errors`, `data.userErrors` and the rest of `data`. */
  datatype GraphQLReply<T> =
    | Unreachable(message: string)
    | Reply(errors: Option<seq<string>>, userErrors: Option<seq<string>>, data: T)

  /** The message a `TypeError` carries when `errors[0].message` is read from an
      empty `errors` list. */
  const ReadOfUndefined := "Cannot read properties of undefined (reading 'message')"

  /** The error `shopifyFetch` throws for an `errors` list: the first message;
      an empty list is still truthy and fails on reading its first element. */
  function ApiFailure(messages: seq<string>): string {
    if |messages| > 0 then "Shopify API call failed: " + messages[0] else ReadOfUndefined
  }

  /** `shopifyFetch` as the route files define it: top-level errors only. */
  function RouteFetch<T>(reply: GraphQLReply<T>): (r: Result<T>)
    ensures r.Ok? <==> reply.Reply? && reply.errors.None?
    ensures r.Ok? ==> r.value == reply.data
  {
    match reply
    case Unreachable(m) => Err(m)
    case Reply(errors, _, data) =>
      if errors.Some? then Err(ApiFailure(errors.value)) else Ok(data)
  }

  /** A redirect to `page` of the app (the path up to its query). */
  predicate OnPage(cfg: Config, r: Response, page: string) {
    r.Redirect? && Text.StartsWith(r.location, cfg.host + page)
  }

  /** A redirect to the dashboard, with an optional query. */
  function DashboardRedirect(cfg: Config, query: string): (r: Response)
    ensures OnPage(cfg, r, "/dashboard") && r.cookie.None?
  {
    assert (cfg.host + "/dashboard" + query)[..|cfg.host + "/dashboard"|] == cfg.host + "/dashboard";
    Redirect(cfg.host + "/dashboard" + query, None)
  }

  const PricingErrorPath := "/pricing?error="

  /** A redirect to the pricing page carrying an already encoded `error` value. */
  function ErrorRedirect(cfg: Config, value: string): (r: Response)
    ensures OnPage(cfg, r, PricingErrorPath) && !OnPage(cfg, r, "/dashboard")
    ensures r.cookie.None?
  {
    var prefix := cfg.host + PricingErrorPath;
    assert (prefix + value)[..|prefix|] == prefix;
    assert (prefix + value)[|cfg.host| + 1] == 'p';
    assert (cfg.host + "/dashboard")[|cfg.host| + 1] == 'd';
    Redirect(prefix + value, None)
  }

  /** The redirect every billing handler answers a failure with: the message
      is the whole `error` value, so no `&` or `#` can follow the prefix. */
  function PricingError(cfg: Config, message: string): (r: Response)
    ensures OnPage(cfg, r, PricingErrorPath) && !OnPage(cfg, r, "/dashboard")
    ensures r.cookie.None?
    ensures forall i :: |cfg.host + PricingErrorPath| <= i < |r.location| ==>
              r.location[i] != '&' && r.location[i] != '#'
  {
    var prefix := cfg.host + PricingErrorPath;
    var value := UrlEncoding.EncodeUriComponent(message);
    assert forall i :: |prefix| <= i < |prefix + value| ==> (prefix + value)[i] == value[i - |prefix|];
    ErrorRedirect(cfg, value)
  }

  /** How a reader of the redirect recovers the `error` value. */
  function ErrorParam(cfg: Config, location: string): Option<string> {
    var prefix := cfg.host + PricingErrorPath;
    if Text.StartsWith(location, prefix) then UrlEncoding.DecodeUriComponent(location[|prefix|..]) else None
  }

  /** The error message survives the redirect unchanged. */
  lemma PricingErrorReadsBack(cfg: Config, message: string)
    ensures ErrorParam(cfg, PricingError(cfg, message).location) == Some(message)
  {
    var prefix := cfg.host + PricingErrorPath;
    var value := UrlEncoding.EncodeUriComponent(message);
    assert PricingError(cfg, message).location[|prefix|..] == value;
    UrlEncoding.DecodeEncodeComponent(message);
  }

  /** Every recorded store update is preceded by an Admin API call. */
  ghost predicate PersistsOnlyAfterPlatformCall(calls: seq<Call>) {
    forall j :: 0 <= j < |calls| && calls[j].UpdateShop? ==>
      exists i :: 0 <= i < j && calls[i].AdminGraphQL?
  }

  predicate MakesPlatformCall(calls: seq<Call>) {
    exists i :: 0 <= i < |calls| && calls[i].AdminGraphQL?
  }
}
