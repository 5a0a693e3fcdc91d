/** The `app/uninstalled` webhook: authenticate the request by its HMAC
    header, then delete the shop's first record. */
module Uninstall {
  import opened Wrappers
  import opened ShopStore
  import opened Platform
  import Hmac
  import Utf8

  /** The two headers (`None` when absent) and the raw body. */
  datatype WebhookRequest = WebhookRequest(hmacHeader: Option<string>, shopDomain: Option<string>, body: string)

  const MissingHeaders := "Missing headers"
  const ServerError := "Internal Server Error"

  predicate HasHeaders(req: WebhookRequest) {
    Truthy(req.hmacHeader) && Truthy(req.shopDomain) && req.body != ""
  }

  /** The request carries the signature of its body under the webhook secret. */
  predicate Authentic(req: WebhookRequest, cfg: Config, sign: Hmac.Signer) {
    HasHeaders(req) && Truthy(cfg.webhookSecret) && req.hmacHeader.value == sign(cfg.webhookSecret.value, req.body)
  }

  /** The webhook, with `onLengthMismatch` the answer when the header and the
      digest differ in byte length. Nothing touches the store unless the request
      is authentic; then the first record of the shop, if any, is deleted and
      every other record is kept in order. */
  function HandleUninstall(req: WebhookRequest, cfg: Config, sign: Hmac.Signer, onLengthMismatch: Response,
                           fault: StoreFault, store: Store): (o: Outcome)
    requires onLengthMismatch == Crash || onLengthMismatch == Json(401, ErrorBody("Unauthorized"))
    ensures o.calls != [] ==> Authentic(req, cfg, sign) && o.calls[0] == QueryShops(req.shopDomain.value)
    ensures o.store != store ==>
      Authentic(req, cfg, sign) && FindFirst(store, req.shopDomain.value).Some?
      && o.store == RemoveAt(store, FindFirst(store, req.shopDomain.value).value)
      && o.response == Json(200, SuccessBody)
    ensures o.response == Json(200, SuccessBody) ==>
      Authentic(req, cfg, sign)
      && (o.store == store <==> FindFirst(store, req.shopDomain.value).None?)
  {
    if !HasHeaders(req) then Outcome(Json(400, ErrorBody(MissingHeaders)), store, [])
    else if !Truthy(cfg.webhookSecret) then Outcome(Json(500, ErrorBody(ServerError)), store, [])
    else
      var digest := sign(cfg.webhookSecret.value, req.body);
      Hmac.DigestMatchesIff(req.hmacHeader.value, digest);
      match Hmac.DigestMatches(req.hmacHeader.value, digest)
      case None => Outcome(onLengthMismatch, store, [])
      case Some(false) => Outcome(Json(401, ErrorBody("Unauthorized")), store, [])
      case Some(true) =>
        var shop := req.shopDomain.value;
        var looked := [QueryShops(shop)];
        if fault.ReadFails? then Outcome(Json(500, ErrorBody(ServerError)), store, looked)
        else match FindFirst(store, shop)
          case None => Outcome(Json(200, SuccessBody), store, looked)
          case Some(i) =>
            var written := looked + [DeleteShop(i)];
            if fault.WriteFails? then Outcome(Json(500, ErrorBody(ServerError)), store, written)
            else
              assert |RemoveAt(store, i)| < |store|;
              Outcome(Json(200, SuccessBody), RemoveAt(store, i), written)
  }

  /** `POST api/webhooks/shopify/app_uninstalled` as written: the `RangeError`
      of a length mismatch escapes the handler. */
  function AppUninstalled(req: WebhookRequest, cfg: Config, sign: Hmac.Signer, fault: StoreFault, store: Store)
    : Outcome
  {
    HandleUninstall(req, cfg, sign, Crash, fault, store)
  }

  /** The webhook with every digest mismatch answered 401. */
  function AppUninstalledCorrected(req: WebhookRequest, cfg: Config, sign: Hmac.Signer, fault: StoreFault,
                                   store: Store): Outcome
  {
    HandleUninstall(req, cfg, sign, Json(401, ErrorBody("Unauthorized")), fault, store)
  }

  /** A missing header or an empty body is answered 400 before anything else. */
  lemma MissingHeadersRejected(req: WebhookRequest, cfg: Config, sign: Hmac.Signer, fault: StoreFault, store: Store)
    requires !HasHeaders(req)
    ensures AppUninstalled(req, cfg, sign, fault, store) == Outcome(Json(400, ErrorBody(MissingHeaders)), store, [])
  {
  }

  /** Without the webhook secret the answer is 500, after the header check. */
  lemma MissingSecretIsServerError(req: WebhookRequest, cfg: Config, sign: Hmac.Signer, fault: StoreFault,
                                   store: Store)
    requires HasHeaders(req) && !Truthy(cfg.webhookSecret)
    ensures AppUninstalled(req, cfg, sign, fault, store) == Outcome(Json(500, ErrorBody(ServerError)), store, [])
  {
  }

  /** A header of the digest's byte length that is not the digest is refused
      with 401 and the store is not touched. */
  lemma ForgedDigestUnauthorized(req: WebhookRequest, cfg: Config, sign: Hmac.Signer, fault: StoreFault,
                                 store: Store)
    requires HasHeaders(req) && Truthy(cfg.webhookSecret)
    requires req.hmacHeader.value != sign(cfg.webhookSecret.value, req.body)
    requires |Utf8.Encode(req.hmacHeader.value)| == |Utf8.Encode(sign(cfg.webhookSecret.value, req.body))|
    ensures AppUninstalled(req, cfg, sign, fault, store) == Outcome(Json(401, ErrorBody("Unauthorized")), store, [])
  {
    Hmac.DigestMatchesIff(req.hmacHeader.value, sign(cfg.webhookSecret.value, req.body));
  }

  /** As written, a header whose byte length differs from the digest's makes
      the handler throw, so the framework answers 500 rather than 401. */
  lemma LengthMismatchCrashes(req: WebhookRequest, cfg: Config, sign: Hmac.Signer, fault: StoreFault, store: Store)
    requires HasHeaders(req) && Truthy(cfg.webhookSecret)
    requires |Utf8.Encode(req.hmacHeader.value)| != |Utf8.Encode(sign(cfg.webhookSecret.value, req.body))|
    ensures !Authentic(req, cfg, sign)
    ensures AppUninstalled(req, cfg, sign, fault, store) == Outcome(Crash, store, [])
  {
    Hmac.DigestMatchesIff(req.hmacHeader.value, sign(cfg.webhookSecret.value, req.body));
  }

  /** With the correction, every request that is not authentic but has its
      headers and the secret is refused with 401, whatever its header length. */
  lemma CorrectedRejectsEveryForgery(req: WebhookRequest, cfg: Config, sign: Hmac.Signer, fault: StoreFault,
                                     store: Store)
    requires HasHeaders(req) && Truthy(cfg.webhookSecret) && !Authentic(req, cfg, sign)
    ensures AppUninstalledCorrected(req, cfg, sign, fault, store)
            == Outcome(Json(401, ErrorBody("Unauthorized")), store, [])
  {
    Hmac.DigestMatchesIff(req.hmacHeader.value, sign(cfg.webhookSecret.value, req.body));
  }

  /** An authentic request for a stored shop deletes its first record and keeps
      all others in order. */
  lemma AuthenticRemovesFirst(req: WebhookRequest, cfg: Config, sign: Hmac.Signer, store: Store)
    requires Authentic(req, cfg, sign)
    requires FindFirst(store, req.shopDomain.value).Some?
    ensures var i := FindFirst(store, req.shopDomain.value).value;
            var o := AppUninstalled(req, cfg, sign, Healthy, store);
            o.response == Json(200, SuccessBody) && o.store == RemoveAt(store, i)
            && o.calls == [QueryShops(req.shopDomain.value), DeleteShop(i)]
  {
    Hmac.DigestMatchesIff(req.hmacHeader.value, sign(cfg.webhookSecret.value, req.body));
  }

  /** An authentic request for an unknown shop still succeeds, and deletes
      nothing. */
  lemma AuthenticAbsentSucceeds(req: WebhookRequest, cfg: Config, sign: Hmac.Signer, store: Store)
    requires Authentic(req, cfg, sign)
    requires FindFirst(store, req.shopDomain.value).None?
    ensures AppUninstalled(req, cfg, sign, Healthy, store)
            == Outcome(Json(200, SuccessBody), store, [QueryShops(req.shopDomain.value)])
  {
    Hmac.DigestMatchesIff(req.hmacHeader.value, sign(cfg.webhookSecret.value, req.body));
  }

  /** Delivering the same authentic webhook again succeeds and changes nothing
      more, when the store held at most one record per domain. */
  lemma UninstallIdempotent(req: WebhookRequest, cfg: Config, sign: Hmac.Signer, store: Store)
    requires Authentic(req, cfg, sign) && UniqueDomains(store)
    ensures var once := AppUninstalled(req, cfg, sign, Healthy, store);
            var twice := AppUninstalled(req, cfg, sign, Healthy, once.store);
            once.response == twice.response == Json(200, SuccessBody)
            && twice.store == once.store
            && FindFirst(twice.store, req.shopDomain.value).None?
  {
    var shop := req.shopDomain.value;
    var once := AppUninstalled(req, cfg, sign, Healthy, store);
    match FindFirst(store, shop)
    case None =>
      AuthenticAbsentSucceeds(req, cfg, sign, store);
    case Some(i) =>
      AuthenticRemovesFirst(req, cfg, sign, store);
      RemoveKeepsUnique(store, i);
      AuthenticAbsentSucceeds(req, cfg, sign, once.store);
  }

  /** Uninstalling keeps at most one record per domain. */
  lemma UninstallKeepsUnique(req: WebhookRequest, cfg: Config, sign: Hmac.Signer, fault: StoreFault, store: Store)
    requires UniqueDomains(store)
    ensures UniqueDomains(AppUninstalled(req, cfg, sign, fault, store).store)
  {
    var o := AppUninstalled(req, cfg, sign, fault, store);
    if o.store != store {
      RemoveKeepsUnique(store, FindFirst(store, req.shopDomain.value).value);
    }
  }
}
