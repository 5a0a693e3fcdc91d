/** App installation: the OAuth authorize redirect and the two callbacks that
    exchange the authorization code for an access token and record the shop.
    `InstallCallback` is `api/auth/callback`; `LegacyInstallCallback` is
    `api/auth/shopify/callback`, the `redirect_uri` the authorize route names. */
module Install {
  import opened Wrappers
  import opened ShopStore
  import opened Platform
  import Text
  import UrlEncoding

  /** The query string of a callback request. */
  datatype CallbackQuery = CallbackQuery(code: Option<string>, shop: Option<string>, state: Option<string>)

  /** The token exchange: the request or its JSON parse threw, or the body's
      `access_token` field. */
  datatype TokenReply = ExchangeFailed | TokenJson(accessToken: Option<string>)

  /** `shop.json`: the request, the JSON parse or the read of `shop.id` threw,
      or the shop's id and name. */
  datatype DetailsReply = DetailsFailed | ShopDetails(id: int, name: string)

  const MissingParams := "Missing code or shop parameter"
  const MissingCredentials := "Shopify API credentials are not configured"
  const NoToken := "Failed to retrieve access token"
  const Unexpected := "An unexpected error occurred"

  /** The request checks both callbacks perform before any external call. */
  function Precheck(q: CallbackQuery, cfg: Config): (r: Option<Response>)
    ensures r.None? <==> Truthy(q.code) && Truthy(q.shop) && Truthy(cfg.apiKey) && Truthy(cfg.apiSecret)
    ensures r.Some? ==> r.value.Json? && r.value.body.ErrorBody?
  {
    if !Truthy(q.code) || !Truthy(q.shop) then Some(Json(400, ErrorBody(MissingParams)))
    else if !Truthy(cfg.apiKey) || !Truthy(cfg.apiSecret) then Some(Json(500, ErrorBody(MissingCredentials)))
    else None
  }

  /** The session cookie the install callback sets. */
  function ShopCookie(cfg: Config, shop: string): Cookie {
    Cookie("shop", shop, true, cfg.production, "lax", "/")
  }

  /** `new URL('/pricing', host)` with `searchParams.set('shop', shop)`. */
  function PricingRedirect(cfg: Config, shop: string): (r: Response)
    ensures r.Redirect?
  {
    Redirect(cfg.host + "/pricing?shop=" + UrlEncoding.FormEncode(shop), Some(ShopCookie(cfg, shop)))
  }

  /** The record `addDoc` creates on a first install. */
  function NewRecord(shop: string, token: string, id: int, name: string): ShopRecord {
    ShopRecord(shop, token, Some(id), Some(name), Some("basic"), Some(""), None)
  }

  /** The fields `updateDoc` rewrites on a reinstall. */
  function Reinstalled(rec: ShopRecord, token: string): ShopRecord {
    rec.(accessToken := token, plan := Some("basic"), chargeId := Some(""))
  }

  /** `GET api/auth/callback`. On success the store holds the shop with the new
      token, the basic plan and no charge, every other record is untouched, and
      the redirect names the shop in a query value that reads back as it. Any
      other response leaves the store as it was. */
  function InstallCallback(q: CallbackQuery, cfg: Config, token: TokenReply, details: DetailsReply,
                           fault: StoreFault, store: Store): (o: Outcome)
    ensures !o.response.Redirect? ==> o.store == store
    ensures o.response.Redirect? ==>
      Truthy(q.shop) && token.TokenJson? && Truthy(token.accessToken)
      && o.response.location == cfg.host + "/pricing?shop=" + UrlEncoding.FormEncode(q.shop.value)
      && UrlEncoding.FormDecode(UrlEncoding.FormEncode(q.shop.value)) == q.shop
      && o.response.cookie == Some(Cookie("shop", q.shop.value, true, cfg.production, "lax", "/"))
    ensures o.response.Redirect? ==>
      var i := FindFirst(o.store, q.shop.value);
      i.Some? && o.store[i.value].accessToken == token.accessToken.value
      && o.store[i.value].plan == Some("basic") && o.store[i.value].chargeId == Some("")
    ensures o.response.Redirect? ==>
      |store| <= |o.store| <= |store| + 1
      && forall k :: 0 <= k < |store| && store[k].domain != q.shop.value ==> o.store[k] == store[k]
  {
    match Precheck(q, cfg)
    case Some(r) => Outcome(r, store, [])
    case None =>
      var shop := q.shop.value;
      var exchanged := [ExchangeToken(shop, q.code.value)];
      if token.ExchangeFailed? then Outcome(Json(500, ErrorBody(Unexpected)), store, exchanged)
      else if !Truthy(token.accessToken) then Outcome(Json(500, ErrorBody(NoToken)), store, exchanged)
      else
        var t := token.accessToken.value;
        var queried := exchanged + [QueryShops(shop)];
        if fault.ReadFails? then Outcome(Json(500, ErrorBody(Unexpected)), store, queried)
        else
          UrlEncoding.DecodeFormEncode(shop);
          match FindFirst(store, shop)
          case None =>
            var fetched := queried + [FetchShopDetails(shop, t, "2024-04")];
            if details.DetailsFailed? then Outcome(Json(500, ErrorBody(Unexpected)), store, fetched)
            else
              var rec := NewRecord(shop, t, details.id, details.name);
              var written := fetched + [AddShop(rec)];
              if fault.WriteFails? then Outcome(Json(500, ErrorBody(Unexpected)), store, written)
              else
                assert FindFirst(store + [rec], shop) == Some(|store|) by {
                  assert (store + [rec])[|store|] == rec;
                  assert forall k :: 0 <= k < |store| ==> (store + [rec])[k] == store[k];
                }
                Outcome(PricingRedirect(cfg, shop), store + [rec], written)
          case Some(i) =>
            var rec := Reinstalled(store[i], t);
            var written := queried + [UpdateShop(i, rec)];
            if fault.WriteFails? then Outcome(Json(500, ErrorBody(Unexpected)), store, written)
            else
              assert FindFirst(store[i := rec], shop) == Some(i) by {
                assert store[i := rec][i].domain == shop;
                assert forall k :: 0 <= k < i ==> store[i := rec][k] == store[k];
              }
              Outcome(PricingRedirect(cfg, shop), store[i := rec], written)
  }

  /** `GET api/auth/shopify/callback`: creates a record without plan or charge
      on a first install, leaves an existing record (and its stale token) as it
      is, and redirects to the dashboard. */
  function LegacyInstallCallback(q: CallbackQuery, cfg: Config, token: TokenReply, details: DetailsReply,
                                 fault: StoreFault, store: Store): (o: Outcome)
    ensures !o.response.Redirect? ==> o.store == store
    ensures o.response.Redirect? ==>
      o.response == Redirect(cfg.host + "/dashboard", None)
      && Truthy(q.shop) && FindFirst(o.store, q.shop.value).Some?
    ensures o.store == store || (Truthy(q.shop) && FindFirst(store, q.shop.value).None?
                                 && |o.store| == |store| + 1 && o.store[..|store|] == store
                                 && token.TokenJson? && Truthy(token.accessToken) && details.ShopDetails?
                                 && o.store[|store|]
                                    == ShopRecord(q.shop.value, token.accessToken.value, Some(details.id),
                                                  Some(details.name), None, None, None))
  {
    match Precheck(q, cfg)
    case Some(r) => Outcome(r, store, [])
    case None =>
      var shop := q.shop.value;
      var exchanged := [ExchangeToken(shop, q.code.value)];
      if token.ExchangeFailed? then Outcome(Json(500, ErrorBody(Unexpected)), store, exchanged)
      else if !Truthy(token.accessToken) then Outcome(Json(500, ErrorBody(NoToken)), store, exchanged)
      else
        var t := token.accessToken.value;
        var queried := exchanged + [QueryShops(shop)];
        if fault.ReadFails? then Outcome(Json(500, ErrorBody(Unexpected)), store, queried)
        else
          match FindFirst(store, shop)
          case None =>
            var fetched := queried + [FetchShopDetails(shop, t, "2023-10")];
            if details.DetailsFailed? then Outcome(Json(500, ErrorBody(Unexpected)), store, fetched)
            else
              var rec := ShopRecord(shop, t, Some(details.id), Some(details.name), None, None, None);
              var written := fetched + [AddShop(rec)];
              if fault.WriteFails? then Outcome(Json(500, ErrorBody(Unexpected)), store, written)
              else
                assert FindFirst(store + [rec], shop).Some? by {
                  assert (store + [rec])[|store|] == rec;
                }
                Outcome(Redirect(cfg.host + "/dashboard", None), store + [rec], written)
          case Some(_) =>
            Outcome(Redirect(cfg.host + "/dashboard", None), store, queried)
  }

  /** Missing `code` or `shop` is answered with 400 before any external call. */
  lemma InstallMissingParams(q: CallbackQuery, cfg: Config, token: TokenReply, details: DetailsReply,
                             fault: StoreFault, store: Store)
    requires !Truthy(q.code) || !Truthy(q.shop)
    ensures InstallCallback(q, cfg, token, details, fault, store)
            == Outcome(Json(400, ErrorBody(MissingParams)), store, [])
    ensures LegacyInstallCallback(q, cfg, token, details, fault, store)
            == Outcome(Json(400, ErrorBody(MissingParams)), store, [])
  {
  }

  /** Without both credentials the callbacks answer 500 before any external call. */
  lemma InstallNeedsCredentials(q: CallbackQuery, cfg: Config, token: TokenReply, details: DetailsReply,
                                fault: StoreFault, store: Store)
    requires Truthy(q.code) && Truthy(q.shop)
    requires !Truthy(cfg.apiKey) || !Truthy(cfg.apiSecret)
    ensures InstallCallback(q, cfg, token, details, fault, store)
            == Outcome(Json(500, ErrorBody(MissingCredentials)), store, [])
    ensures LegacyInstallCallback(q, cfg, token, details, fault, store)
            == Outcome(Json(500, ErrorBody(MissingCredentials)), store, [])
  {
  }

  /** A token reply without a token stops after the exchange: the store is
      neither read nor written. */
  lemma InstallNeedsToken(q: CallbackQuery, cfg: Config, t: Option<string>, details: DetailsReply,
                          fault: StoreFault, store: Store)
    requires Precheck(q, cfg).None?
    requires !Truthy(t)
    ensures InstallCallback(q, cfg, TokenJson(t), details, fault, store)
            == Outcome(Json(500, ErrorBody(NoToken)), store, [ExchangeToken(q.shop.value, q.code.value)])
  {
  }

  /** A first install appends a record carrying the token, the shop details,
      the basic plan and an empty charge id. */
  lemma InstallCreatesRecord(q: CallbackQuery, cfg: Config, t: string, id: int, name: string, store: Store)
    requires Precheck(q, cfg).None? && t != ""
    requires FindFirst(store, q.shop.value).None?
    ensures InstallCallback(q, cfg, TokenJson(Some(t)), ShopDetails(id, name), Healthy, store).store
            == store + [ShopRecord(q.shop.value, t, Some(id), Some(name), Some("basic"), Some(""), None)]
  {
  }

  /** A first install through the older callback appends the shop's id, name,
      domain and token, with no plan and no charge id. */
  lemma LegacyCreatesRecord(q: CallbackQuery, cfg: Config, t: string, id: int, name: string, store: Store)
    requires Precheck(q, cfg).None? && t != ""
    requires FindFirst(store, q.shop.value).None?
    ensures LegacyInstallCallback(q, cfg, TokenJson(Some(t)), ShopDetails(id, name), Healthy, store).store
            == store + [ShopRecord(q.shop.value, t, Some(id), Some(name), None, None, None)]
  {
  }

  /** A reinstall rewrites the first matching record's token, plan and charge
      id and keeps its other fields, whatever plan it held before. */
  lemma ReinstallResetsPlan(q: CallbackQuery, cfg: Config, t: string, details: DetailsReply, store: Store)
    requires Precheck(q, cfg).None? && t != ""
    requires FindFirst(store, q.shop.value).Some?
    ensures var i := FindFirst(store, q.shop.value).value;
            var o := InstallCallback(q, cfg, TokenJson(Some(t)), details, Healthy, store);
            |o.store| == |store|
            && o.store[i] == store[i].(accessToken := t, plan := Some("basic"), chargeId := Some(""))
            && (forall k :: 0 <= k < |store| && k != i ==> o.store[k] == store[k])
  {
  }

  /** Installation keeps at most one record per domain. */
  lemma InstallKeepsUnique(q: CallbackQuery, cfg: Config, token: TokenReply, details: DetailsReply,
                           fault: StoreFault, store: Store)
    requires UniqueDomains(store)
    ensures UniqueDomains(InstallCallback(q, cfg, token, details, fault, store).store)
    ensures UniqueDomains(LegacyInstallCallback(q, cfg, token, details, fault, store).store)
  {
    var o := InstallCallback(q, cfg, token, details, fault, store);
    if o.store != store {
      var shop := q.shop.value;
      match FindFirst(store, shop)
      case None =>
        AppendAbsentKeepsUnique(store, NewRecord(shop, token.accessToken.value, details.id, details.name));
      case Some(i) =>
        ReplaceKeepsUnique(store, i, Reinstalled(store[i], token.accessToken.value));
    }
    var l := LegacyInstallCallback(q, cfg, token, details, fault, store);
    if l.store != store {
      AppendAbsentKeepsUnique(store, l.store[|store|]);
      assert l.store == store + [l.store[|store|]];
    }
  }

  /** After a successful install the shop has exactly one record, when the
      store had at most one per domain. */
  lemma InstallLeavesOneRecord(q: CallbackQuery, cfg: Config, token: TokenReply, details: DetailsReply,
                               fault: StoreFault, store: Store)
    requires UniqueDomains(store)
    requires InstallCallback(q, cfg, token, details, fault, store).response.Redirect?
    ensures Count(InstallCallback(q, cfg, token, details, fault, store).store, q.shop.value) == 1
  {
    InstallKeepsUnique(q, cfg, token, details, fault, store);
    CountUnique(InstallCallback(q, cfg, token, details, fault, store).store, q.shop.value);
  }

  /** Repeating a successful install with the same token changes nothing more. */
  lemma InstallIdempotent(q: CallbackQuery, cfg: Config, t: string, d1: DetailsReply, d2: DetailsReply,
                          store: Store)
    requires InstallCallback(q, cfg, TokenJson(Some(t)), d1, Healthy, store).response.Redirect?
    ensures var once := InstallCallback(q, cfg, TokenJson(Some(t)), d1, Healthy, store);
            var twice := InstallCallback(q, cfg, TokenJson(Some(t)), d2, Healthy, once.store);
            twice.store == once.store && twice.response == once.response
  {
    var once := InstallCallback(q, cfg, TokenJson(Some(t)), d1, Healthy, store);
    var i := FindFirst(once.store, q.shop.value).value;
    assert Reinstalled(once.store[i], t) == once.store[i];
    assert once.store[i := once.store[i]] == once.store;
  }

  /** The legacy callback never reads the `state` parameter. */
  lemma LegacyIgnoresState(q: CallbackQuery, state: Option<string>, cfg: Config, token: TokenReply,
                           details: DetailsReply, fault: StoreFault, store: Store)
    ensures LegacyInstallCallback(q.(state := state), cfg, token, details, fault, store)
            == LegacyInstallCallback(q, cfg, token, details, fault, store)
  {
  }

  /** A reinstall through the legacy callback keeps the stored token, so a
      fresh token is dropped. */
  lemma LegacyKeepsStaleToken(q: CallbackQuery, cfg: Config, t: string, details: DetailsReply, store: Store)
    requires Precheck(q, cfg).None? && t != ""
    requires FindFirst(store, q.shop.value).Some?
    ensures var o := LegacyInstallCallback(q, cfg, TokenJson(Some(t)), details, Healthy, store);
            o.store == store && o.response.Redirect?
            && forall c :: c in o.calls ==> !c.AddShop? && !c.UpdateShop?
  {
  }

  const DefaultScopes := "read_products"

  /** `SHOPIFY_SCOPES || 'read_products'`. */
  function Scopes(cfg: Config): (s: string)
    ensures s != ""
    ensures Truthy(cfg.scopes) ==> s == cfg.scopes.value
  {
    if Truthy(cfg.scopes) then cfg.scopes.value else DefaultScopes
  }

  /** The callback the authorize route names as `redirect_uri`. */
  function CallbackUri(cfg: Config): string {
    cfg.host + "/api/auth/shopify/callback"
  }

  /** `GET api/auth/shopify`: the redirect to the shop's OAuth consent screen.
      The values are interpolated into the URL without encoding, and `state`
      is generated but never stored. The shop and scopes are taken to be
      URL-clean, so the parse `NextResponse.redirect` applies to the URL is the
      identity here. */
  function Authorize(shop: Option<string>, cfg: Config, state: string): (r: Response)
    ensures r.Redirect? <==> Truthy(shop) && Truthy(cfg.apiKey)
    ensures !Truthy(shop) ==> r == Json(400, ErrorBody("Shop parameter is missing"))
    ensures Truthy(shop) && !Truthy(cfg.apiKey) ==> r == Json(500, ErrorBody("Shopify API key is not configured"))
    ensures r.Redirect? ==> r.cookie.None? && Text.StartsWith(r.location, "https://" + shop.value + "/admin/oauth/authorize?client_id=")
  {
    if !Truthy(shop) then Json(400, ErrorBody("Shop parameter is missing"))
    else if !Truthy(cfg.apiKey) then Json(500, ErrorBody("Shopify API key is not configured"))
    else
      var prefix := "https://" + shop.value + "/admin/oauth/authorize?client_id=";
      var rest := cfg.apiKey.value + "&scope=" + Scopes(cfg) + "&redirect_uri=" + CallbackUri(cfg) + "&state=" + state;
      assert (prefix + rest)[..|prefix|] == prefix;
      Redirect(prefix + rest, None)
  }

  /** Three consecutive pieces of a string are an infix of it. */
  lemma ThreeIncluded(h: string, p1: string, p2: string, p3: string, z: string)
    ensures Text.Includes(h + p1 + p2 + p3 + z, p1 + p2 + p3)
  {
    assert h + p1 + p2 + p3 + z == h + (p1 + p2 + p3) + z;
    Text.IncludesInfix(h, p1 + p2 + p3, z);
  }

  /** Five consecutive pieces of a string are an infix of it. */
  lemma FiveIncluded(h: string, p1: string, p2: string, p3: string, p4: string, p5: string, z: string)
    ensures Text.Includes(h + p1 + p2 + p3 + p4 + p5 + z, p1 + p2 + p3 + p4 + p5)
  {
    assert h + p1 + p2 + p3 + p4 + p5 + z == h + (p1 + p2 + p3 + p4 + p5) + z;
    Text.IncludesInfix(h, p1 + p2 + p3 + p4 + p5, z);
  }

  /** A string ends with its last two pieces. */
  lemma EndsWithPieces(h: string, t: string, z: string)
    ensures |h + t + z| >= |t| + |z| && (h + t + z)[|h + t + z| - |z| - |t|..] == t + z
  {
    assert (h + t + z)[|h|..] == t + z;
  }

  /** The authorize URL split into the pieces the route interpolates. */
  lemma AuthorizeLocation(shop: string, cfg: Config, state: string)
    requires shop != "" && Truthy(cfg.apiKey)
    ensures Authorize(Some(shop), cfg, state).location
            == AuthorizeHead(shop) + "client_id=" + cfg.apiKey.value + "&scope="
               + Scopes(cfg) + "&redirect_uri=" + CallbackUri(cfg) + "&state=" + state
  {
    assert "https://" + shop + "/admin/oauth/authorize?client_id=" == AuthorizeHead(shop) + "client_id=";
  }

  /** The part of the authorize URL before its query. */
  function AuthorizeHead(shop: string): string {
    "https://" + shop + "/admin/oauth/authorize?"
  }

  /** The authorize URL names the legacy callback as `redirect_uri`. */
  lemma AuthorizeNamesCallback(shop: string, cfg: Config, state: string)
    requires shop != "" && Truthy(cfg.apiKey)
    ensures Text.Includes(Authorize(Some(shop), cfg, state).location, "&redirect_uri=" + CallbackUri(cfg) + "&state=")
  {
    AuthorizeLocation(shop, cfg, state);
    ThreeIncluded(AuthorizeHead(shop) + "client_id=" + cfg.apiKey.value + "&scope=" + Scopes(cfg),
                  "&redirect_uri=", CallbackUri(cfg), "&state=", state);
  }

  /** The authorize URL ends with the state. */
  lemma AuthorizeEndsWithState(shop: string, cfg: Config, state: string)
    requires shop != "" && Truthy(cfg.apiKey)
    ensures var loc := Authorize(Some(shop), cfg, state).location;
            |loc| >= |state| + 7 && loc[|loc| - |state| - 7..] == "&state=" + state
  {
    AuthorizeLocation(shop, cfg, state);
    EndsWithPieces(AuthorizeHead(shop) + "client_id=" + cfg.apiKey.value + "&scope=" + Scopes(cfg)
                   + "&redirect_uri=" + CallbackUri(cfg), "&state=", state);
  }

  /** Regrouping a string whose fourth piece is split in two. */
  lemma SplitFourth(h: string, p1: string, p2: string, a: string, b: string, c: string, d: string, z: string)
    ensures h + p1 + p2 + (a + b) + c + d + z == h + p1 + p2 + a + (b + c + d + z)
  {
  }

  /** Without configured scopes the authorize URL asks for `read_products`. */
  lemma AuthorizeDefaultScopes(shop: string, cfg: Config, state: string)
    requires shop != "" && Truthy(cfg.apiKey) && !Truthy(cfg.scopes)
    ensures Text.Includes(Authorize(Some(shop), cfg, state).location, "&scope=read_products&")
  {
    AuthorizeLocation(shop, cfg, state);
    var key := AuthorizeHead(shop) + "client_id=" + cfg.apiKey.value;
    var cb := CallbackUri(cfg);
    assert Scopes(cfg) == "read_products";
    assert "&redirect_uri=" == "&" + "redirect_uri=";
    SplitFourth(key, "&scope=", "read_products", "&", "redirect_uri=", cb, "&state=", state);
    ThreeIncluded(key, "&scope=", "read_products", "&", "redirect_uri=" + cb + "&state=" + state);
    assert "&scope=" + "read_products" + "&" == "&scope=read_products&";
  }

  /** The authorize URL asks for `read_products` when no scopes are configured,
      names the legacy callback as `redirect_uri`, and ends with the state. */
  lemma AuthorizeUrlParts(shop: string, cfg: Config, state: string)
    requires shop != "" && Truthy(cfg.apiKey)
    ensures var loc := Authorize(Some(shop), cfg, state).location;
            Text.Includes(loc, "&redirect_uri=" + CallbackUri(cfg) + "&state=")
            && (!Truthy(cfg.scopes) ==> Text.Includes(loc, "&scope=read_products&"))
            && |loc| >= |state| + 7 && loc[|loc| - |state| - 7..] == "&state=" + state
  {
    AuthorizeNamesCallback(shop, cfg, state);
    AuthorizeEndsWithState(shop, cfg, state);
    if !Truthy(cfg.scopes) {
      AuthorizeDefaultScopes(shop, cfg, state);
    }
  }

  /** The authorize URL sends the configured API key as `client_id`, followed
      by the configured scopes (or `read_products`). */
  lemma AuthorizeSendsKeyAndScopes(shop: string, cfg: Config, state: string)
    requires shop != "" && Truthy(cfg.apiKey)
    ensures Text.Includes(Authorize(Some(shop), cfg, state).location,
                          "client_id=" + cfg.apiKey.value + "&scope=" + Scopes(cfg) + "&redirect_uri=")
  {
    AuthorizeLocation(shop, cfg, state);
    var tail := CallbackUri(cfg) + "&state=" + state;
    assert AuthorizeHead(shop) + "client_id=" + cfg.apiKey.value + "&scope=" + Scopes(cfg) + "&redirect_uri="
           + CallbackUri(cfg) + "&state=" + state
           == AuthorizeHead(shop) + "client_id=" + cfg.apiKey.value + "&scope=" + Scopes(cfg) + "&redirect_uri="
           + tail;
    FiveIncluded(AuthorizeHead(shop), "client_id=", cfg.apiKey.value, "&scope=", Scopes(cfg), "&redirect_uri=", tail);
  }

  /** The state the authorize route sends has no bearing on the callback it
      names: any two states lead to the same outcome. */
  lemma AuthorizeStateUnchecked(q: CallbackQuery, s1: string, s2: string, cfg: Config, token: TokenReply,
                                details: DetailsReply, fault: StoreFault, store: Store)
    ensures LegacyInstallCallback(q.(state := Some(s1)), cfg, token, details, fault, store)
            == LegacyInstallCallback(q.(state := Some(s2)), cfg, token, details, fault, store)
  {
  }
}
