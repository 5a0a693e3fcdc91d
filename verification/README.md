# Kora Wallet: a Dafny model of the Shopify app's core

Kora Wallet is a Shopify app built with Next.js. A merchant installs it through
Shopify's OAuth flow, picks a subscription plan (basic, growth or pro), and then
uses a dashboard, a discount manager and plan-gated AI tools. Shops are stored
as records in a `shops` collection, one per shop domain.

This project models the server-side core of the app and the two pieces of
client logic that make decisions:

- the OAuth authorize redirect and the two install callbacks (`Install`);
- the three billing-confirmation callbacks (`Billing`) and the
  `createSubscription` server action (`Subscription`);
- the `app/uninstalled` webhook (`Uninstall`) and the HMAC helper (`Hmac`);
- the data server actions: shop lookup, Admin API fetch, dashboard, products,
  discount codes and discount creation (`ShopData`);
- plan levels (`Plans`), the sidebar menu filter (`MainNav`), the page guard
  (`PlanGuard`) and the help-article browser (`HelpDocs`).

Handlers are pure functions. Each one takes the request, the environment
(`Platform.Config`), the replies of the external services, a `StoreFault` (the
store read or write throws) and the store (`ShopStore.Store`, a sequence of
records in query order). It returns the response, the new store and the
ordered trace of external calls (`Platform.Call`). The trace is how the model
states ordering properties: "no token exchange before the parameters are
checked", "no store write before the platform has confirmed the charge"
(`Platform.PersistsOnlyAfterPlatformCall`), "no platform call for an invalid
discount".

Supporting modules: `Wrappers` (Option, Result), `Seqs` (`filter`/`map` and the
sub-sequence relation), `Text` (ASCII case mapping, `includes`, `trim`, decimal
rendering), `Utf8` (what `Buffer.from` and the percent-encoders see),
`UrlEncoding` (`encodeURIComponent` from section 19.2.6.5 of ECMA-262, and the
`application/x-www-form-urlencoded` serializer from section 5.2 of the WHATWG
URL Standard), and `Platform` (environment, responses, service replies, call
trace, shop lookup and error redirects).

The model follows the code where the code and its documentation disagree:

- A webhook HMAC header whose byte length differs from the digest's makes
  `crypto.timingSafeEqual` throw a `RangeError`. The route does not catch it,
  so the request fails with an uncaught exception (`Crash`) instead of the
  documented 401.
- Subscriptions are only ever requested with the `EVERY_30_DAYS` interval. An
  annual interval is mentioned in the help text but does not exist in the code.

## Model

| member | source | states |
|---|---|---|
| Plans.LevelStrictlyIncreasing | src/components/main-nav.tsx:28-32 | The levels are strictly increasing basic < growth < pro; equal levels mean equal plans |
| Plans.GrantsIsTotalOrder | src/components/plan-guard.tsx:18-22 | The access rule `userLevel >= requiredLevel` is reflexive, antisymmetric, transitive and total on plans |
| Plans.GrantsExtremes | src/components/plan-guard.tsx:18-29 | Every plan reaches basic, and pro reaches every plan |
| Plans.Lookup | src/components/main-nav.tsx:28-32 | Looking up a string finds a plan exactly when the string is that plan's lower-case key |
| Plans.LookupName | src/components/main-nav.tsx:28-32 | A plan's own key looks up that plan (round trip of name and lookup) |
| MainNav.UserLevel | src/components/main-nav.tsx:90 | A table plan gets its own level; a name the object literal lacks falls back to level 1; a name it inherits from `Object.prototype` (`toString`, `constructor`, `__proto__`, …) gets a truthy non-number that fails every `>=`, modelled as level 0 |
| MainNav.InheritedKeyMenu | src/components/main-nav.tsx:90-103 | A plan named after an inherited property sees an empty menu |
| MainNav.RestrictSubItems | src/components/main-nav.tsx:94-102 | An item's sub-items become exactly those its level allows, in their original order; an item without sub-items passes unchanged; the other fields are kept |
| MainNav.AvailableIsRestrictedFilter | src/components/main-nav.tsx:92-103 | The filter/map/filter pipeline equals restricting the items that survive it, characterised item by item (an allowed item whose restricted sub-item list is absent or non-empty) |
| MainNav.AvailableOnlyAllowed | src/components/main-nav.tsx:93-103 | Every item and sub-item shown is allowed at the user's level, and no shown item has an empty sub-item list |
| MainNav.LeafItemsPassThrough | src/components/main-nav.tsx:101-103 | An allowed item without sub-items is shown, unchanged |
| MainNav.AvailablePreservesOrder | src/components/main-nav.tsx:92-103 | The menu shown is a sub-list of the table, in the table's order |
| MainNav.KeptMonotone | src/components/main-nav.tsx:93-103 | A higher level keeps every item and every sub-item a lower level keeps |
| MainNav.AvailableMonotone | src/components/main-nav.tsx:93-103 | A higher plan never sees fewer entries: the lower plan's menu is a sub-list of the higher plan's menu |
| MainNav.BasicMenu | src/components/main-nav.tsx:42-103 | Basic sees Dashboard, Discounts and Pricing |
| MainNav.GrowthMenu | src/components/main-nav.tsx:42-103 | Growth also sees AI Tools with Sales Prediction and Pricing Suggestions, but not AOV Optimization |
| MainNav.ProMenu | src/components/main-nav.tsx:42-103 | Pro sees the whole table, AOV Optimization included |
| PlanGuard.CurrentPlan | src/components/plan-guard.tsx:25 | A missing or empty plan reads as `basic`; any other value is kept |
| PlanGuard.Capitalize | src/components/plan-guard.tsx:42-47 | The first character is upper-cased and the rest is unchanged |
| PlanGuard.Guard | src/components/plan-guard.tsx:24-55 | Content is shown exactly when the current plan is a table plan that reaches the required plan; otherwise the upgrade card links to `/pricing?shop=` followed by the shop and shows both plan names capitalised |
| PlanGuard.GuardDecision | src/components/plan-guard.tsx:29-31 | For a table plan, content is shown if and only if its level reaches the required level |
| PlanGuard.MissingPlanIsBasic | src/components/plan-guard.tsx:25 | A missing or empty plan is guarded exactly like `basic` |
| PlanGuard.BasicAlwaysGranted | src/components/plan-guard.tsx:18-29 | A page requiring basic is open to every table plan and to a missing plan |
| PlanGuard.GuardAgreesWithMenu | src/components/plan-guard.tsx:18-29 | For a table plan, an empty plan or an inherited property name, the guard opens exactly when the menu would show an item of that required plan |
| PlanGuard.UnknownPlanLockedOut | src/components/plan-guard.tsx:26-29 | A non-empty plan outside the table is locked out of every page, while the menu treats it as basic, unless it is an inherited property name, for which the menu is empty |
| PlanGuard.GuardMonotone | src/components/plan-guard.tsx:29 | Upgrading never locks a page that was open |
| PlanGuard.PlanLabels | src/components/plan-guard.tsx:42-47 | The card shows "Basic", "Growth" and "Pro", and lower-casing a label gives back the plan key |
| ShopStore.FindFirst | src/app/api/auth/callback/route.ts:42-45 | The lookup returns the first record with the domain, or none when no record has it |
| ShopStore.AppendAbsentKeepsUnique | src/app/api/auth/callback/route.ts:53-61 | Appending a record for an absent domain keeps at most one record per domain |
| ShopStore.RemoveKeepsUnique | src/app/api/webhooks/shopify/app_uninstalled/route.ts:43-45 | Deleting a record keeps domains unique, and the deleted domain is then absent |
| Platform.LocateShop | src/app/api/auth/billing/callback/route.ts:48-63 | The lookup succeeds exactly when the read works, the domain is stored and (where required) its token is non-empty; it then names the first match; each failure carries its own message |
| Platform.RouteFetch | src/app/api/auth/billing/callback/route.ts:16-21 | The route-level fetch succeeds exactly when the reply arrived without top-level errors, and then yields its data |
| Platform.PricingError | src/app/api/auth/billing/callback/route.ts:98-101 | The error redirect goes to the pricing page, never to the dashboard, and its value contains no query delimiter |
| Platform.PricingErrorReadsBack | src/app/api/auth/billing/callback/route.ts:100-101 | Reading the `error` value back from the redirect gives the original message |
| Install.Precheck | src/app/api/auth/callback/route.ts:12-21 | The request passes exactly when code, shop, API key and API secret are all non-empty; otherwise the answer is a JSON error |
| Install.InstallCallback | src/app/api/auth/callback/route.ts:7-92 | Any response other than the redirect leaves the store unchanged; the redirect goes to `/pricing` with the shop as a query value that reads back as the shop, sets the `shop` cookie, and leaves the shop's first record with the new token, plan basic and an empty charge, other domains untouched |
| Install.InstallMissingParams | src/app/api/auth/callback/route.ts:12-14 | Missing code or shop gives 400 with no external call, in both callbacks |
| Install.InstallNeedsCredentials | src/app/api/auth/callback/route.ts:16-21 | Missing credentials give 500 with no external call, in both callbacks |
| Install.InstallNeedsToken | src/app/api/auth/callback/route.ts:31-35 | A reply without a token gives 500 after the exchange, with the store neither read nor written |
| Install.InstallCreatesRecord | src/app/api/auth/callback/route.ts:45-61 | A first install appends exactly one record with the domain, token, shop details, plan basic and empty charge |
| Install.ReinstallResetsPlan | src/app/api/auth/callback/route.ts:62-70 | A reinstall sets the first match's token to the new one, its plan to basic and its charge to empty, keeps its other fields (domain, store id, name, subscription) and every other record |
| Install.InstallKeepsUnique | src/app/api/auth/callback/route.ts:42-71 | Both callbacks keep at most one record per domain |
| Install.InstallLeavesOneRecord | src/app/api/auth/callback/route.ts:42-71 | After a successful install the shop has exactly one record |
| Install.InstallIdempotent | src/app/api/auth/callback/route.ts:42-71 | Repeating a successful install with the same token leaves the same store |
| Install.LegacyInstallCallback | src/app/api/auth/shopify/callback/route.ts:5-83 | Success redirects to the dashboard without a cookie; the store either stays as it was or gains exactly one record at the end, for a domain that was absent, holding the shop's id, name, domain and token with no plan and no charge |
| Install.LegacyCreatesRecord | src/app/api/auth/shopify/callback/route.ts:52-69 | A first install through the older callback appends exactly the record with id, name, domain and token, and no plan or charge |
| Install.LegacyIgnoresState | src/app/api/auth/shopify/callback/route.ts:9-15 | The `state` parameter has no effect on the outcome |
| Install.LegacyKeepsStaleToken | src/app/api/auth/shopify/callback/route.ts:70-77 | A reinstall through the older callback redirects to the dashboard without writing, so the stored token is not refreshed |
| Install.Scopes | src/app/api/auth/shopify/route.ts:16 | The scopes are the configured ones when set and non-empty, otherwise a non-empty default |
| Install.Authorize | src/app/api/auth/shopify/route.ts:4-25 | For a URL-clean shop and scopes, the authorize redirect is issued exactly when shop and API key are present, with 400 and 500 otherwise, and it points at the shop's `/admin/oauth/authorize?client_id=` |
| Install.AuthorizeUrlParts | src/app/api/auth/shopify/route.ts:16-22 | The URL asks for `read_products` when no scopes are set, names the older callback as `redirect_uri`, and ends with the state |
| Install.AuthorizeSendsKeyAndScopes | src/app/api/auth/shopify/route.ts:16-22 | The URL sends the configured API key as `client_id` followed by the configured scopes, or `read_products` |
| Install.AuthorizeStateUnchecked | src/app/api/auth/shopify/route.ts:18-20 | Any two states lead to the same callback outcome: the state is never checked |
| Billing.SubscriptionGid | src/app/api/auth/billing/callback/route.ts:66 | The queried id is the 30-character `gid://shopify/AppSubscription/` prefix followed by exactly the charge id |
| Billing.Persist | src/app/api/auth/billing/callback/route.ts:80-89 | The write comes after the given calls; success changes only the record written, and a failed write leaves the store and answers with the error redirect |
| Billing.ConfirmWithStatusCheck | src/app/api/auth/billing/callback/route.ts:37-103 | The store changes only after a status query for the charge's own id; the success redirect records the lower-cased plan, the charge and its id in the shop's first record; every write follows a platform call |
| Billing.StatusCheckDecision | src/app/api/auth/billing/callback/route.ts:76-96 | For a known shop with a token, the plan is recorded exactly when the node's status is ACTIVE; otherwise the error names the status or UNKNOWN and nothing changes |
| Billing.StatusCheckApiErrors | src/app/api/auth/billing/callback/route.ts:16-19 | Top-level API errors abort with the first message and no write |
| Billing.ConfirmWithActivation | src/app/api/auth/billing/route.ts:41-105 | The store changes only when activation reported no user errors and an ACTIVE subscription; success records plan and charge and redirects to the dashboard without a flag |
| Billing.ActivationDecision | src/app/api/auth/billing/route.ts:80-98 | User errors win over the status with their first message; otherwise the plan is recorded exactly when the subscription is ACTIVE |
| Billing.ConfirmUnverified | src/app/api/auth/shopify/billing/callback/route.ts:6-44 | The store changes only with all parameters present, and the handler never calls the platform |
| Billing.UnverifiedPersistsWithoutCheck | src/app/api/auth/shopify/billing/callback/route.ts:26-37 | For any known shop the plan and charge are written with no platform call before the write, so verify-before-persist fails |
| Billing.MissingParamsUntouched | src/app/api/auth/billing/callback/route.ts:43-45 | A missing charge id, shop or plan redirects to pricing with `Invalid+callback+parameters` (`Invalid+callback` in the unverified handler), with no external call and the store untouched |
| Billing.UnknownShopOrToken | src/app/api/auth/billing/callback/route.ts:53-63 | In both verified handlers, an unknown shop or an empty token ends in an error redirect whose message names which, after the lookup alone and with the store unchanged |
| Billing.PlanNotBoundToCharge | src/app/api/auth/billing/callback/route.ts:78-85 | The recorded plan is whatever the query says: the status check does not tie the plan to the charge |
| Billing.StatusCheckIdempotent | src/app/api/auth/billing/callback/route.ts:78-89 | Replaying an accepted confirmation leaves the same store |
| Billing.BillingKeepsUnique | src/app/api/auth/billing/callback/route.ts:80-85 | All three handlers keep at most one record per domain |
| Subscription.Key | src/app/actions/shopify.ts:7-11 | The price-table key lower-cases to the plan's stored name |
| Subscription.PricesFollowLevels | src/app/actions/shopify.ts:7-11 | Prices rise strictly with the plan level |
| Subscription.PricesInDollars | src/app/actions/shopify.ts:7-11 | Every price is a whole number of dollars from 10 to 50 |
| Subscription.RequestWith | src/app/actions/shopify.ts:78-93 | The request is a test charge named after the plan, with a 7-day trial, the given return URL and a single line item in USD at the plan's price |
| Subscription.CreateSubscriptionVia | src/app/actions/shopify.ts:58-111 | The result is a confirmation exactly when the shop is found with a token and the reply has neither errors nor user errors; a lookup failure stops before any platform call; the only platform call sends the plan's request |
| Subscription.ReturnPlanReadsBack | src/app/actions/shopify.ts:80 | The upper-case plan in the return URL, lower-cased by the callback, names the plan that was bought |
| Subscription.SubscriptionNeedsShop | src/app/actions/shopify.ts:19-27 | An unknown shop or a missing token fails with its message and no platform call |
| Subscription.SubscriptionUserErrors | src/app/actions/shopify.ts:97-100 | A non-empty user-error list fails with its first message |
| Subscription.SentUrlIsReturnUrl | src/app/actions/shopify.ts:78-95 | For a known shop the action sends exactly the return URL it built |
| Subscription.ChargeFollowsPlan | src/app/actions/shopify.ts:61-93 | The request the action sends names the bought plan and charges its price, and a higher plan is charged strictly more |
| Subscription.UnverifiedUrlRoute | src/app/actions/shopify.ts:80 | The return URL as written is routed to the unverified billing callback |
| Subscription.ReturnSkipsVerification | src/app/actions/shopify.ts:80 | As written, the merchant returns to a handler that records the plan with no platform call before the write |
| Subscription.CorrectedReturnVerifies | src/app/api/auth/billing/callback/route.ts:66-89 | Returning to the status-checking callback, the plan is recorded only after the platform reports the charge ACTIVE, and it is the plan that was bought |
| Hmac.TimingSafeEqual | src/lib/shopify-hmac.ts:32 | The comparison throws exactly on a length mismatch and answers true exactly on equal bytes |
| Hmac.DigestMatchesIff | src/lib/shopify-hmac.ts:28-32 | The byte comparison accepts exactly the header that equals the digest, and throws exactly when their UTF-8 lengths differ |
| Hmac.VerifyShopifyHmac | src/lib/shopify-hmac.ts:11-37 | It returns normally exactly when the header and secret are present and the header is the digest of the body; the header is checked before the secret; a length mismatch throws; any other mismatch is "Invalid HMAC signature" |
| Hmac.SignedBodyVerifies | src/lib/shopify-hmac.ts:23-36 | A header equal to the body's signature under the secret is always accepted |
| Hmac.ForgedHeaderRejected | src/lib/shopify-hmac.ts:31-34 | A header of the right length that is not the digest is rejected as an invalid signature |
| Hmac.HelperIgnoresWebhookSecret | src/lib/shopify-hmac.ts:18-21 | With only the webhook secret configured, the helper rejects every request for want of the API secret |
| Uninstall.HandleUninstall | src/app/api/webhooks/shopify/app_uninstalled/route.ts:7-57 | No store access unless the request is authentic; a store change is the deletion of the shop's first record, answered 200; a 200 means the request was authentic, and the store is unchanged exactly when the shop was absent |
| Uninstall.MissingHeadersRejected | src/app/api/webhooks/shopify/app_uninstalled/route.ts:12-14 | A missing header or empty body gives 400 with no store access |
| Uninstall.MissingSecretIsServerError | src/app/api/webhooks/shopify/app_uninstalled/route.ts:17-21 | A missing webhook secret gives 500 after the header check, with no store access |
| Uninstall.ForgedDigestUnauthorized | src/app/api/webhooks/shopify/app_uninstalled/route.ts:23-33 | A header of the digest's length that differs from it gives 401 with the store unchanged |
| Uninstall.LengthMismatchCrashes | src/app/api/webhooks/shopify/app_uninstalled/route.ts:28-33 | As written, a forged header of a different byte length makes the handler throw instead of answering 401 |
| Uninstall.CorrectedRejectsEveryForgery | src/app/api/webhooks/shopify/app_uninstalled/route.ts:31-33 | With length mismatches answered 401, every request that is not authentic is refused with 401 and the store unchanged |
| Uninstall.AuthenticRemovesFirst | src/app/api/webhooks/shopify/app_uninstalled/route.ts:43-46 | An authentic request for a stored shop deletes its first record and keeps the others in order |
| Uninstall.AuthenticAbsentSucceeds | src/app/api/webhooks/shopify/app_uninstalled/route.ts:47-51 | An authentic request for an unknown shop answers 200 and deletes nothing |
| Uninstall.UninstallIdempotent | src/app/api/webhooks/shopify/app_uninstalled/route.ts:43-51 | Delivering the same webhook twice answers 200 both times, and the second delivery changes nothing |
| Uninstall.UninstallKeepsUnique | src/app/api/webhooks/shopify/app_uninstalled/route.ts:43-46 | Uninstalling keeps at most one record per domain |
| ShopData.GetShopData | src/app/actions/shopify-data.ts:13-36 | The lookup succeeds exactly when the domain is stored with a non-empty token and then returns the first match; otherwise it names the missing domain or the missing token |
| ShopData.DataFetch | src/app/actions/shopify-data.ts:38-63 | The fetch succeeds exactly when the shop is found and the reply has no top-level errors and no user errors; top-level errors are reported first, user errors second, each by its first message |
| ShopData.ErrorsTakePrecedence | src/app/actions/shopify-data.ts:51-59 | With top-level errors, the failure names the first of them whatever the user errors are |
| ShopData.GetDashboardData | src/app/actions/shopify-data.ts:120-145 | The result is null exactly when the fetch fails; otherwise it carries the analytics, the first sales total if any, and one recent sale per order in order, each with the order's id, the trimmed customer name, the email or "No email", the order's amount and currency, and the avatar seeded by its position |
| ShopData.CustomerEmail | src/app/actions/shopify-data.ts:135 | The email is the customer's when non-empty, otherwise "No email" |
| ShopData.FullName | src/app/actions/shopify-data.ts:134 | Two names with no surrounding whitespace show as the first name, one space, and the last name |
| ShopData.FirstNameOnly | src/app/actions/shopify-data.ts:134 | A missing last name shows the first name alone, without the separating space |
| ShopData.NoCustomer | src/app/actions/shopify-data.ts:134-135 | An order without a customer shows an empty name and "No email" |
| ShopData.AvatarsDistinct | src/app/actions/shopify-data.ts:138 | Sales at different positions get different avatar URLs |
| ShopData.ProductOf | src/app/actions/shopify-data.ts:180-185 | A product row keeps id and title, its price text is the first variant's price when that is non-empty and "0" otherwise, and a missing inventory becomes 0 |
| ShopData.GetProducts | src/app/actions/shopify-data.ts:177-190 | Any failure gives the empty list; otherwise one row per product, in order |
| ShopData.ProductsFollowNodes | src/app/actions/shopify-data.ts:177-185 | On success the product ids listed are the returned node ids in order, and a product without a priced first variant shows price "0" |
| ShopData.DiscountOf | src/app/actions/shopify-data.ts:225-236 | A discount's code and title are both the node's title, and id, status and usage count are kept; for a discount that is not a basic code discount, whose `codeDiscount` is an empty object, code, title, status and usage count are all undefined |
| ShopData.GetDiscountCodes | src/app/actions/shopify-data.ts:221-243 | Any failure gives the empty list; otherwise one row per node, in order, each row built from its node as for a single discount, undefined fields included |
| ShopData.DiscountCodesAreTitles | src/app/actions/shopify-data.ts:221-243 | On success the codes listed are the returned discount titles in order, undefined for discounts of another kind, and each row's code equals its title |
| ShopData.DiscountRequestFor | src/app/actions/shopify-data.ts:274-304 | The mutation variables use the code as title and code and apply to all items and customers once per customer; a percentage is sent as a fraction in (0, 1] that is the value over 100; a fixed amount is sent in USD |
| ShopData.CreateDiscountCode | src/app/actions/shopify-data.ts:269-322 | A lookup failure or a percentage outside (0, 100] fails with no platform call; the result is a created code exactly when the value is valid, the shop is found and the reply has neither top-level errors nor user errors, and then it is the title the platform returns; the only platform call carries the request built from the input |
| ShopData.PercentageOutOfRange | src/app/actions/shopify-data.ts:274-277 | A percentage outside (0, 100] fails with the range message and never reaches the platform |
| ShopData.FixedAmountAlwaysSent | src/app/actions/shopify-data.ts:282-306 | Any fixed amount is sent, in USD, as the third call after the two shop lookups |
| ShopData.DiscountCreated | src/app/actions/shopify-data.ts:306-316 | A valid value for a known shop, answered cleanly, creates the returned title after sending the request built from the input |
| ShopData.DiscountUserErrors | src/app/actions/shopify-data.ts:308-312 | The mutation's user errors are reported by their first message |
| HelpDocs.FilteredArticles | src/components/help-docs.tsx:92-95 | Every article listed is one of the articles and matches the term; every matching article is listed |
| HelpDocs.ListedIff | src/components/help-docs.tsx:92-95 | An article is listed if and only if the lower-cased term occurs in its lower-cased title or excerpt |
| HelpDocs.EmptyTermListsAll | src/components/help-docs.tsx:89-95 | The empty term lists every article, in order |
| HelpDocs.ListIsOrderedSublist | src/components/help-docs.tsx:92 | The list is a sub-sequence of the articles |
| HelpDocs.SearchIgnoresCase | src/components/help-docs.tsx:93-94 | A term and its lower-case form list the same articles |
| HelpDocs.NarrowingTermNarrowsList | src/components/help-docs.tsx:92-95 | Extending the term never lists an article the shorter term did not |
| HelpDocs.HandleBack | src/components/help-docs.tsx:97-103 | Back closes an open article and keeps the term; with no article open it calls `onBack` |
| HelpDocs.SelectThenBack | src/components/help-docs.tsx:97-103 | Opening an article and going back returns to the same list state |
| HelpDocs.BackTwiceLeaves | src/components/help-docs.tsx:97-103 | From an open article, the second back leaves the browser |
| HelpDocs.Render | src/components/help-docs.tsx:105-178 | An open article is shown alone; otherwise the filtered list is shown, with the "No articles found" notice exactly when no article matches |
| HelpDocs.InitialShowsAll | src/components/help-docs.tsx:89-95 | The browser opens on the full list with no notice |
| UrlEncoding.DecodeEncodeComponent | src/app/api/auth/billing/callback/route.ts:101 | `decodeURIComponent(encodeURIComponent(s))` gives back `s` |
| UrlEncoding.DecodeFormEncode | src/app/api/auth/callback/route.ts:84-85 | A value set through `searchParams.set` reads back unchanged |
| UrlEncoding.EncodeUriComponent | src/app/api/auth/billing/callback/route.ts:101 | The encoding holds only unreserved characters and `%` |
| Utf8.DecodeEncode | src/lib/shopify-hmac.ts:28-29 | Decoding the UTF-8 bytes of a string gives back the string |
| Utf8.EncodeInjective | src/lib/shopify-hmac.ts:28-29 | Different strings have different UTF-8 bytes, so comparing buffers compares the strings |
| Text.Trim | src/app/actions/shopify-data.ts:134 | The result has no whitespace at either end and is a slice of the input with only whitespace around it |
| Text.IncludesIffOccurs | src/components/help-docs.tsx:93-94 | `includes` holds exactly when the term occurs at some offset |
| Text.LowerIdempotent | src/components/help-docs.tsx:93-94 | Lower-casing twice is lower-casing once |
| Text.DecimalRoundTrip | src/app/actions/shopify-data.ts:138 | Reading back a rendered number gives the number |

## Left out

- Network, JSON and the Firestore SDK: every `fetch` and store call is a parameter (a service reply or a `StoreFault`) or an entry of the call trace. Replies are taken in the shape the code reads them. A reply of any other shape is not modelled, with two exceptions: the read of `errors[0].message` on an empty list, and a discount node of a kind other than a basic code discount, which the code lists with undefined fields. Most other shapes would make the code throw a `TypeError`, but not all of them.
- Where a new record lands in query order: `addDoc` is modelled as appending at the end, and the store is read in that order.
- The mix of client (`collection`, `getDocs`) and Admin (`firestore.collection`) Firestore APIs on the same handle: both are taken to work.
- Timestamps (`serverTimestamp`, `new Date().toISOString()`): the creation and update times are not stored, and the discount start time is a parameter.
- Randomness: the OAuth `state` (a UUID) is a parameter.
- The HMAC-SHA256 digest and base64: the signer is a parameter.
- Concurrency between requests: each handler runs alone on the store.
- Case mapping is ASCII-only. JavaScript's `toLowerCase`/`toUpperCase` cover all of Unicode.
- `NEXT_PUBLIC_HOST` is taken to be a bare origin, so `new URL('/pricing', host)` is `host + "/pricing"`. An invalid host, which makes `new URL` throw, is not modelled.
- Typed inputs: the plan of `createSubscription` and the discount kind are the TypeScript unions, so an untyped value outside them is not modelled.
- Floating point: `parseFloat` of a product price and `toFixed(2)` of a fixed discount are left out. A product keeps its price text, a fixed amount is sent as the real number, and a percentage is divided by 100 exactly.
- Install.Authorize: the shop and the scopes are taken to be URL-clean: a lower-case host name and no character that `new URL` rejects or percent-escapes. `NextResponse.redirect` parses the interpolated URL. It throws on a malformed one (a shop such as `a b` gives a 500 instead of a redirect), lower-cases the host and escapes characters such as spaces. None of that is modelled, so the Location is the raw interpolation.
- ShopData.ProductOf: keeps the price as text instead of the parsed number, because `parseFloat` is not modelled.
- ShopData.DiscountRequestFor: states the fixed amount as a real number, not as the `toFixed(2)` string.
- ShopData.CreateDiscountCode: the value is a real, so a `NaN` percentage, which passes the `value <= 0 || value > 100` check in the source and is sent to the platform, cannot be expressed.
- Query strings are not parsed in general: the return URL of `createSubscription` is routed by its path, and the query the platform sends back is built directly.
- Rendering: React views, icons, styles and the article bodies of the help browser are not modelled; only the decisions they show are.
- The AI flows, the support mailer, the logout route and the page components outside the core are not part of this model.

## Findings

| source | as written | input that shows it | evidently intended | confidence | as-written member | corrected member |
|---|---|---|---|---|---|---|
| src/app/api/webhooks/shopify/app_uninstalled/route.ts:28-33 | `crypto.timingSafeEqual` on the digest and header buffers, outside the `try` | a webhook with the secret set and an `x-shopify-hmac-sha256` header of any length other than the 44 bytes of a base64 SHA-256 digest, e.g. `"x"` | a forged or malformed signature is answered 401 Unauthorized | high, not executed | Uninstall.LengthMismatchCrashes | Uninstall.CorrectedRejectsEveryForgery |
| src/app/actions/shopify.ts:80 | the return URL names `/api/auth/shopify/billing/callback`, which records the plan without asking the platform | a merchant who returns to the URL with any `charge_id`, whether or not the charge was approved | the return URL names the callback that checks the subscription's status before recording the plan (`/api/auth/billing/callback`) | medium, not executed | Subscription.ReturnSkipsVerification | Subscription.CorrectedReturnVerifies |
