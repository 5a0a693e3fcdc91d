/** The three handlers a merchant returns to after approving a charge. Each
    reads `charge_id`, `shop` and `plan` from the query and may record the
    plan on the shop's first matching record:
    `ConfirmWithStatusCheck` (`api/auth/billing/callback`) queries the
    subscription and writes only when it is ACTIVE; `ConfirmWithActivation`
    (`api/auth/billing`) calls the activate mutation and writes only when the
    result is ACTIVE; `ConfirmUnverified` (`api/auth/shopify/billing/callback`)
    writes without asking the platform. */
module Billing {
  import opened Wrappers
  import opened ShopStore
  import opened Platform
  import Text

  datatype BillingQuery = BillingQuery(chargeId: Option<string>, shop: Option<string>, plan: Option<string>)

  /** `node` of the subscription query, or `appSubscription` of the activation:
      null, or an object whose `status` may be absent. */
  datatype SubscriptionNode = NoNode | Node(status: Option<string>)

  /** `data.appSubscriptionActivate` of the activate mutation. */
  datatype Activation = Activation(userErrors: seq<string>, subscription: SubscriptionNode)

  const ShopNotInDatabase := "Shop not found in database."
  const TokenMissing := "Shop data or access token is missing."
  const NotActivated := "Subscription could not be activated."
  const ShopNotFound := "Shop not found."

  predicate HasParams(q: BillingQuery) {
    Truthy(q.chargeId) && Truthy(q.shop) && Truthy(q.plan)
  }

  predicate IsActive(node: SubscriptionNode) {
    node.Node? && node.status == Some("ACTIVE")
  }

  /** The subscription's global id: the charge id appended to a fixed prefix,
      so distinct charges give distinct ids. */
  function SubscriptionGid(chargeId: string): (gid: string)
    ensures |gid| == 30 + |chargeId| && gid[30..] == chargeId
  {
    "gid://shopify/AppSubscription/" + chargeId
  }

  /** `Subscription could not be confirmed. Status: ${node?.status || 'UNKNOWN'}`. */
  function NotConfirmed(node: SubscriptionNode): string {
    "Subscription could not be confirmed. Status: "
    + (if node.Node? && Truthy(node.status) then node.status.value else "UNKNOWN")
  }

  /** The record the verified handlers write: the plan lower-cased, the charge. */
  function WithPlan(rec: ShopRecord, plan: string, chargeId: string): ShopRecord {
    rec.(plan := Some(Text.Lower(plan)), chargeId := Some(chargeId))
  }

  /** Only record `i` may differ, and only in plan, charge id and subscription id. */
  ghost predicate OnlyBillingFieldsOf(store: Store, store': Store, i: nat) {
    |store'| == |store| && i < |store|
    && (forall k :: 0 <= k < |store| && k != i ==> store'[k] == store[k])
    && store'[i].domain == store[i].domain && store'[i].accessToken == store[i].accessToken
    && store'[i].shopifyStoreId == store[i].shopifyStoreId && store'[i].shopName == store[i].shopName
  }

  /** `update` of record `i` after `calls`, answering `success` when the write
      goes through and an error redirect (with the store as it was) when not. */
  function Persist(cfg: Config, fault: StoreFault, store: Store, i: nat, rec: ShopRecord,
                   calls: seq<Call>, success: Response): (o: Outcome)
    requires i < |store| && OnPage(cfg, success, "/dashboard")
    ensures o.calls == calls + [UpdateShop(i, rec)]
    ensures o.response == success <==> !fault.WriteFails?
    ensures o.response == success ==> o.store == store[i := rec]
    ensures o.response != success ==> o.store == store && o.response == PricingError(cfg, fault.message)
    ensures PersistsOnlyAfterPlatformCall(calls) && MakesPlatformCall(calls) ==> PersistsOnlyAfterPlatformCall(o.calls)
    ensures !PersistsOnlyAfterPlatformCall(o.calls) <== !MakesPlatformCall(calls)
    ensures MakesPlatformCall(o.calls) <==> MakesPlatformCall(calls)
  {
    var written := calls + [UpdateShop(i, rec)];
    assert forall k :: 0 <= k < |calls| ==> written[k] == calls[k];
    assert written[|calls|].UpdateShop?;
    if fault.WriteFails? then Outcome(PricingError(cfg, fault.message), store, written)
    else Outcome(success, store[i := rec], written)
  }

  /** `GET api/auth/billing/callback`. The store changes only after a status
      query answered ACTIVE for this very charge, and then only the first
      record of the shop, which gets the lower-cased plan, the charge id and
      the subscription id. */
  function ConfirmWithStatusCheck(q: BillingQuery, cfg: Config, status: GraphQLReply<SubscriptionNode>,
                                  fault: StoreFault, store: Store): (o: Outcome)
    ensures o.store != store ==>
      HasParams(q) && status.Reply? && status.errors.None? && IsActive(status.data)
      && o.response == DashboardRedirect(cfg, "?billing_success=true")
    ensures o.response == DashboardRedirect(cfg, "?billing_success=true") ==>
      HasParams(q) &&
      var i := FindFirst(store, q.shop.value);
      i.Some? && OnlyBillingFieldsOf(store, o.store, i.value)
      && o.store[i.value].plan == Some(Text.Lower(q.plan.value))
      && o.store[i.value].chargeId == q.chargeId
      && o.store[i.value].subscriptionGid == Some(SubscriptionGid(q.chargeId.value))
    ensures PersistsOnlyAfterPlatformCall(o.calls)
    ensures forall c :: c in o.calls && c.AdminGraphQL? ==>
      HasParams(q) && c.operation == SubscriptionStatusQuery(SubscriptionGid(q.chargeId.value))
  {
    if !HasParams(q) then Outcome(ErrorRedirect(cfg, "Invalid+callback+parameters"), store, [])
    else
      var shop := q.shop.value;
      var looked := [QueryShops(shop)];
      match LocateShop(fault, store, shop, ShopNotInDatabase, Some(TokenMissing))
      case Err(m) => Outcome(PricingError(cfg, m), store, looked)
      case Ok(i) =>
        var gid := SubscriptionGid(q.chargeId.value);
        var asked := looked + [AdminGraphQL(shop, store[i].accessToken, SubscriptionStatusQuery(gid))];
        match RouteFetch(status)
        case Err(m) => Outcome(PricingError(cfg, m), store, asked)
        case Ok(node) =>
          if !IsActive(node) then Outcome(PricingError(cfg, NotConfirmed(node)), store, asked)
          else
            assert asked[1].AdminGraphQL?;
            var rec := WithPlan(store[i], q.plan.value, q.chargeId.value).(subscriptionGid := Some(gid));
            Persist(cfg, fault, store, i, rec, asked, DashboardRedirect(cfg, "?billing_success=true"))
  }

  /** `GET api/auth/billing`. A non-empty `userErrors` list aborts with its
      first message before the status is looked at; the store changes only
      after an activation that answered ACTIVE, and then only the first
      record's plan and charge id. */
  function ConfirmWithActivation(q: BillingQuery, cfg: Config, activation: GraphQLReply<Activation>,
                                 fault: StoreFault, store: Store): (o: Outcome)
    ensures o.store != store ==>
      HasParams(q) && activation.Reply? && activation.errors.None?
      && activation.data.userErrors == [] && IsActive(activation.data.subscription)
      && o.response == DashboardRedirect(cfg, "")
    ensures o.response == DashboardRedirect(cfg, "") ==>
      HasParams(q) &&
      var i := FindFirst(store, q.shop.value);
      i.Some? && OnlyBillingFieldsOf(store, o.store, i.value)
      && o.store[i.value] == WithPlan(store[i.value], q.plan.value, q.chargeId.value)
    ensures PersistsOnlyAfterPlatformCall(o.calls)
    ensures forall c :: c in o.calls && c.AdminGraphQL? ==>
      HasParams(q) && c.operation == AppSubscriptionActivate(SubscriptionGid(q.chargeId.value))
  {
    if !HasParams(q) then Outcome(ErrorRedirect(cfg, "Invalid+callback+parameters"), store, [])
    else
      var shop := q.shop.value;
      var looked := [QueryShops(shop)];
      match LocateShop(fault, store, shop, ShopNotInDatabase, Some(TokenMissing))
      case Err(m) => Outcome(PricingError(cfg, m), store, looked)
      case Ok(i) =>
        var gid := SubscriptionGid(q.chargeId.value);
        var asked := looked + [AdminGraphQL(shop, store[i].accessToken, AppSubscriptionActivate(gid))];
        match RouteFetch(activation)
        case Err(m) => Outcome(PricingError(cfg, m), store, asked)
        case Ok(a) =>
          if |a.userErrors| > 0 then
            Outcome(PricingError(cfg, "Error activating subscription: " + a.userErrors[0]), store, asked)
          else if !IsActive(a.subscription) then Outcome(PricingError(cfg, NotActivated), store, asked)
          else
            assert asked[1].AdminGraphQL?;
            Persist(cfg, fault, store, i, WithPlan(store[i], q.plan.value, q.chargeId.value), asked,
                    DashboardRedirect(cfg, ""))
  }

  /** `GET api/auth/shopify/billing/callback`: for a known shop it writes the
      plan and charge id straight away, with no call to the platform. */
  function ConfirmUnverified(q: BillingQuery, cfg: Config, fault: StoreFault, store: Store): (o: Outcome)
    ensures o.store != store ==> HasParams(q) && o.response == DashboardRedirect(cfg, "")
    ensures o.response == DashboardRedirect(cfg, "") ==>
      HasParams(q) &&
      var i := FindFirst(store, q.shop.value);
      i.Some? && OnlyBillingFieldsOf(store, o.store, i.value)
      && o.store[i.value] == WithPlan(store[i.value], q.plan.value, q.chargeId.value)
    ensures !MakesPlatformCall(o.calls)
  {
    if !HasParams(q) then Outcome(ErrorRedirect(cfg, "Invalid+callback"), store, [])
    else
      var shop := q.shop.value;
      var looked := [QueryShops(shop)];
      match LocateShop(fault, store, shop, ShopNotFound, None)
      case Err(m) => Outcome(PricingError(cfg, m), store, looked)
      case Ok(i) =>
        Persist(cfg, fault, store, i, WithPlan(store[i], q.plan.value, q.chargeId.value), looked,
                DashboardRedirect(cfg, ""))
  }

  /** Missing parameters are answered before the store is touched. */
  lemma MissingParamsUntouched(q: BillingQuery, cfg: Config, status: GraphQLReply<SubscriptionNode>,
                               activation: GraphQLReply<Activation>, fault: StoreFault, store: Store)
    requires !HasParams(q)
    ensures ConfirmWithStatusCheck(q, cfg, status, fault, store)
            == Outcome(ErrorRedirect(cfg, "Invalid+callback+parameters"), store, [])
    ensures ConfirmWithActivation(q, cfg, activation, fault, store)
            == Outcome(ErrorRedirect(cfg, "Invalid+callback+parameters"), store, [])
    ensures ConfirmUnverified(q, cfg, fault, store)
            == Outcome(ErrorRedirect(cfg, "Invalid+callback"), store, [])
  {
  }

  /** An unknown shop or an empty token ends in an error redirect that names
      the cause, before the platform is asked. */
  lemma UnknownShopOrToken(q: BillingQuery, cfg: Config, status: GraphQLReply<SubscriptionNode>,
                           activation: GraphQLReply<Activation>, store: Store)
    requires HasParams(q)
    requires FindFirst(store, q.shop.value).None? || store[FindFirst(store, q.shop.value).value].accessToken == ""
    ensures var msg := if FindFirst(store, q.shop.value).None? then ShopNotInDatabase else TokenMissing;
            ConfirmWithStatusCheck(q, cfg, status, Healthy, store)
              == Outcome(PricingError(cfg, msg), store, [QueryShops(q.shop.value)])
            && ConfirmWithActivation(q, cfg, activation, Healthy, store)
              == Outcome(PricingError(cfg, msg), store, [QueryShops(q.shop.value)])
            && ErrorParam(cfg, PricingError(cfg, msg).location) == Some(msg)
  {
    var msg := if FindFirst(store, q.shop.value).None? then ShopNotInDatabase else TokenMissing;
    PricingErrorReadsBack(cfg, msg);
  }

  /** For a known shop with a token, the status-checking handler records the
      plan exactly when the platform reports the subscription ACTIVE, and
      otherwise reports the status it saw (or `UNKNOWN`). */
  lemma StatusCheckDecision(q: BillingQuery, cfg: Config, node: SubscriptionNode, store: Store)
    requires HasParams(q)
    requires FindFirst(store, q.shop.value).Some? && store[FindFirst(store, q.shop.value).value].accessToken != ""
    ensures var o := ConfirmWithStatusCheck(q, cfg, Reply(None, None, node), Healthy, store);
            (o.response == DashboardRedirect(cfg, "?billing_success=true") <==> IsActive(node))
            && (!IsActive(node) ==> o.store == store
                                    && ErrorParam(cfg, o.response.location) == Some(NotConfirmed(node)))
  {
    PricingErrorReadsBack(cfg, NotConfirmed(node));
  }

  /** Top-level API errors abort with the first error's message. */
  lemma StatusCheckApiErrors(q: BillingQuery, cfg: Config, errors: seq<string>, userErrors: Option<seq<string>>,
                             node: SubscriptionNode, store: Store)
    requires HasParams(q)
    requires FindFirst(store, q.shop.value).Some? && store[FindFirst(store, q.shop.value).value].accessToken != ""
    requires |errors| > 0
    ensures var o := ConfirmWithStatusCheck(q, cfg, Reply(Some(errors), userErrors, node), Healthy, store);
            o.store == store && ErrorParam(cfg, o.response.location) == Some("Shopify API call failed: " + errors[0])
  {
    PricingErrorReadsBack(cfg, "Shopify API call failed: " + errors[0]);
  }

  /** With the activate mutation, user errors win over the status, and the plan
      is recorded exactly when there are none and the result is ACTIVE. */
  lemma ActivationDecision(q: BillingQuery, cfg: Config, a: Activation, store: Store)
    requires HasParams(q)
    requires FindFirst(store, q.shop.value).Some? && store[FindFirst(store, q.shop.value).value].accessToken != ""
    ensures var o := ConfirmWithActivation(q, cfg, Reply(None, None, a), Healthy, store);
            (o.response == DashboardRedirect(cfg, "") <==> a.userErrors == [] && IsActive(a.subscription))
            && (|a.userErrors| > 0 ==>
                  ErrorParam(cfg, o.response.location) == Some("Error activating subscription: " + a.userErrors[0]))
            && (a.userErrors == [] && !IsActive(a.subscription) ==>
                  ErrorParam(cfg, o.response.location) == Some(NotActivated))
  {
    if |a.userErrors| > 0 {
      PricingErrorReadsBack(cfg, "Error activating subscription: " + a.userErrors[0]);
    } else {
      PricingErrorReadsBack(cfg, NotActivated);
    }
  }

  /** The unverified handler breaks verify-before-persist: for any known shop it
      writes the store with no platform call before the write. */
  lemma UnverifiedPersistsWithoutCheck(q: BillingQuery, cfg: Config, store: Store)
    requires HasParams(q) && FindFirst(store, q.shop.value).Some?
    ensures var o := ConfirmUnverified(q, cfg, Healthy, store);
            o.response == DashboardRedirect(cfg, "")
            && !PersistsOnlyAfterPlatformCall(o.calls)
  {
    var o := ConfirmUnverified(q, cfg, Healthy, store);
    assert o.calls[1].UpdateShop?;
  }

  /** The verified handlers do not tie the plan to the charge: the platform's
      answer is about the charge alone, so with the same answer any plan name in
      the query is recorded, lower-cased, whether or not it names a plan. */
  lemma PlanNotBoundToCharge(q: BillingQuery, plan: string, cfg: Config, node: SubscriptionNode, store: Store)
    requires HasParams(q) && plan != ""
    requires ConfirmWithStatusCheck(q, cfg, Reply(None, None, node), Healthy, store).response
             == DashboardRedirect(cfg, "?billing_success=true")
    ensures var o := ConfirmWithStatusCheck(q.(plan := Some(plan)), cfg, Reply(None, None, node), Healthy, store);
            o.response == DashboardRedirect(cfg, "?billing_success=true")
            && o.store[FindFirst(store, q.shop.value).value].plan == Some(Text.Lower(plan))
  {
  }

  /** Replaying an accepted confirmation changes nothing more. */
  lemma StatusCheckIdempotent(q: BillingQuery, cfg: Config, node: SubscriptionNode, store: Store)
    requires ConfirmWithStatusCheck(q, cfg, Reply(None, None, node), Healthy, store).response
             == DashboardRedirect(cfg, "?billing_success=true")
    ensures var once := ConfirmWithStatusCheck(q, cfg, Reply(None, None, node), Healthy, store);
            ConfirmWithStatusCheck(q, cfg, Reply(None, None, node), Healthy, once.store).store == once.store
  {
    var once := ConfirmWithStatusCheck(q, cfg, Reply(None, None, node), Healthy, store);
    var i := FindFirst(store, q.shop.value).value;
    assert FindFirst(once.store, q.shop.value) == Some(i) by {
      assert forall k :: 0 <= k < i ==> once.store[k] == store[k];
    }
    Text.LowerIdempotent(q.plan.value);
    assert once.store[i := once.store[i]] == once.store;
  }

  /** Billing keeps at most one record per domain. */
  lemma BillingKeepsUnique(q: BillingQuery, cfg: Config, status: GraphQLReply<SubscriptionNode>,
                           activation: GraphQLReply<Activation>, fault: StoreFault, store: Store)
    requires UniqueDomains(store)
    ensures UniqueDomains(ConfirmWithStatusCheck(q, cfg, status, fault, store).store)
    ensures UniqueDomains(ConfirmWithActivation(q, cfg, activation, fault, store).store)
    ensures UniqueDomains(ConfirmUnverified(q, cfg, fault, store).store)
  {
    var s1 := ConfirmWithStatusCheck(q, cfg, status, fault, store).store;
    if s1 != store {
      var i := FindFirst(store, q.shop.value).value;
      ReplaceKeepsUnique(store, i, s1[i]);
      assert s1 == store[i := s1[i]];
    }
    var s2 := ConfirmWithActivation(q, cfg, activation, fault, store).store;
    if s2 != store {
      var i := FindFirst(store, q.shop.value).value;
      ReplaceKeepsUnique(store, i, s2[i]);
      assert s2 == store[i := s2[i]];
    }
    var s3 := ConfirmUnverified(q, cfg, fault, store).store;
    if s3 != store {
      var i := FindFirst(store, q.shop.value).value;
      ReplaceKeepsUnique(store, i, s3[i]);
      assert s3 == store[i := s3[i]];
    }
  }
}
