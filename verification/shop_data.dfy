/** The data server actions: a shop lookup and an Admin API fetch shared by
    all of them, the dashboard, product and discount reads (which degrade to
    `null` or an empty list instead of throwing), and discount creation with
    its value check. */
module ShopData {
  import opened Wrappers
  import opened ShopStore
  import opened Platform
  import Text
  import Seqs

  const TokenNotFound := "Access token not found for this shop."

  function ShopNotFoundFor(shop: string): string {
    "Shop not found for domain: " + shop
  }

  /** `getShopData(shopDomain)`: the first record of the domain, which must hold
      a token. */
  function GetShopData(fault: StoreFault, store: Store, shop: string): (r: Result<ShopRecord>)
    ensures r.Ok? <==> !fault.ReadFails? && FindFirst(store, shop).Some?
                       && store[FindFirst(store, shop).value].accessToken != ""
    ensures r.Ok? ==> r.value.domain == shop && r.value == store[FindFirst(store, shop).value]
    ensures r.Err? && !fault.ReadFails? ==>
      r.message == (if FindFirst(store, shop).None? then ShopNotFoundFor(shop) else TokenNotFound)
  {
    match LocateShop(fault, store, shop, ShopNotFoundFor(shop), Some(TokenNotFound))
    case Err(m) => Err(m)
    case Ok(i) => Ok(store[i])
  }

  /** `result.data.userErrors?.length > 0`. */
  predicate HasUserErrors(userErrors: Option<seq<string>>) {
    userErrors.Some? && |userErrors.value| > 0
  }

  /** `shopifyFetch(shopDomain, query, variables)` of this file: it looks the
      shop up itself, then fails on top-level `errors` first and on top-level
      `data.userErrors` second, each time with the first message. */
  function DataFetch<T>(fault: StoreFault, store: Store, shop: string, operation: Operation,
                        reply: GraphQLReply<T>): (o: ActionOutcome<Result<T>>)
    ensures o.result.Ok? <==>
      GetShopData(fault, store, shop).Ok? && reply.Reply? && reply.errors.None? && !HasUserErrors(reply.userErrors)
    ensures o.result.Ok? ==> o.result.value == reply.data
    ensures GetShopData(fault, store, shop).Ok? && reply.Reply? && reply.errors.Some? ==>
      o.result == Err(ApiFailure(reply.errors.value))
    ensures GetShopData(fault, store, shop).Ok? && reply.Reply? && reply.errors.None? && HasUserErrors(reply.userErrors) ==>
      o.result == Err("Shopify API call failed: " + reply.userErrors.value[0])
    ensures GetShopData(fault, store, shop).Err? ==> o.calls == [QueryShops(shop)]
    ensures GetShopData(fault, store, shop).Ok? ==>
      o.calls == [QueryShops(shop), AdminGraphQL(shop, GetShopData(fault, store, shop).value.accessToken, operation)]
  {
    match GetShopData(fault, store, shop)
    case Err(m) => ActionOutcome(Err(m), [QueryShops(shop)])
    case Ok(rec) =>
      var calls := [QueryShops(shop), AdminGraphQL(rec.domain, rec.accessToken, operation)];
      match reply
      case Unreachable(m) => ActionOutcome(Err(m), calls)
      case Reply(errors, userErrors, data) =>
        if errors.Some? then ActionOutcome(Err(ApiFailure(errors.value)), calls)
        else if HasUserErrors(userErrors) then
          ActionOutcome(Err("Shopify API call failed: " + userErrors.value[0]), calls)
        else ActionOutcome(Ok(data), calls)
  }

  /** Top-level errors win over user errors, whatever the user errors are. */
  lemma ErrorsTakePrecedence<T>(fault: StoreFault, store: Store, shop: string, operation: Operation,
                                errors: seq<string>, userErrors: Option<seq<string>>, data: T)
    requires GetShopData(fault, store, shop).Ok? && |errors| > 0
    ensures DataFetch(fault, store, shop, operation, Reply(Some(errors), userErrors, data)).result
            == Err("Shopify API call failed: " + errors[0])
  {
  }

  // ----- Dashboard -----

  datatype Money = Money(amount: string, currencyCode: string)
  datatype Customer = Customer(firstName: Option<string>, lastName: Option<string>, email: Option<string>)
  datatype OrderNode = OrderNode(id: string, customer: Option<Customer>, total: Money)

  /** The fields of the dashboard query the action reads. */
  datatype DashboardReply = DashboardReply(
    orders: seq<OrderNode>, totalSales: seq<Money>, totalOrders: int, averageOrderValue: Money)

  datatype RecentSale = RecentSale(id: string, name: string, email: string, amount: string,
                                   currencyCode: string, avatar: string)

  /** `totalSales` is `undefined` when the list is empty. */
  datatype DashboardData = DashboardData(
    totalSales: Option<Money>, totalOrders: int, averageOrderValue: Money, recentSales: seq<RecentSale>)

  /** `v || ''`. */
  function OrEmpty(v: Option<string>): (r: string)
    ensures r == "" || (v == Some(r) && r != "")
  {
    if Truthy(v) then v.value else ""
  }

  /** `${customer?.firstName || ''} ${customer?.lastName || ''}`.trim(). */
  function CustomerName(c: Option<Customer>): string {
    var first := if c.Some? then OrEmpty(c.value.firstName) else "";
    var last := if c.Some? then OrEmpty(c.value.lastName) else "";
    Text.Trim(first + " " + last)
  }

  /** `customer?.email || 'No email'`. */
  function CustomerEmail(c: Option<Customer>): (r: string)
    ensures r != ""
    ensures c.Some? && Truthy(c.value.email) ==> r == c.value.email.value
  {
    if c.Some? && Truthy(c.value.email) then c.value.email.value else "No email"
  }

  const AvatarPrefix := "https://picsum.photos/seed/"
  const AvatarSuffix := "/40/40"

  /** The placeholder avatar of the sale at `index`, seeded with `index + 2`. */
  function Avatar(index: nat): string {
    AvatarPrefix + Text.DecimalString(index + 2) + AvatarSuffix
  }

  function SaleOf(node: OrderNode, index: nat): RecentSale {
    RecentSale(node.id, CustomerName(node.customer), CustomerEmail(node.customer),
               node.total.amount, node.total.currencyCode, Avatar(index))
  }

  /** `orders.edges.map((edge, index) => …)` from position `start` on. */
  function RecentSales(orders: seq<OrderNode>, start: nat): (r: seq<RecentSale>)
    ensures |r| == |orders|
    ensures forall k :: 0 <= k < |orders| ==> r[k] == SaleOf(orders[k], start + k)
    decreases |orders|
  {
    if orders == [] then [] else [SaleOf(orders[0], start)] + RecentSales(orders[1..], start + 1)
  }

  /** `getDashboardData(shopDomain)`: `null` on any failure, otherwise the
      analytics and one recent sale per order, in order. */
  function GetDashboardData(shop: string, fault: StoreFault, store: Store, reply: GraphQLReply<DashboardReply>)
    : (o: ActionOutcome<Option<DashboardData>>)
    ensures o.result.Some? <==> DataFetch(fault, store, shop, DashboardQuery, reply).result.Ok?
    ensures o.result.Some? ==>
      var d := reply.data;
      o.result.value.totalOrders == d.totalOrders
      && o.result.value.averageOrderValue == d.averageOrderValue
      && (o.result.value.totalSales.Some? <==> |d.totalSales| > 0)
      && (|d.totalSales| > 0 ==> o.result.value.totalSales == Some(d.totalSales[0]))
      && |o.result.value.recentSales| == |d.orders|
      && forall k :: 0 <= k < |d.orders| ==>
           o.result.value.recentSales[k]
           == RecentSale(d.orders[k].id, CustomerName(d.orders[k].customer), CustomerEmail(d.orders[k].customer),
                         d.orders[k].total.amount, d.orders[k].total.currencyCode, Avatar(k))
  {
    var fetched := DataFetch(fault, store, shop, DashboardQuery, reply);
    match fetched.result
    case Err(_) => ActionOutcome(None, fetched.calls)
    case Ok(d) =>
      var first := if |d.totalSales| > 0 then Some(d.totalSales[0]) else None;
      ActionOutcome(Some(DashboardData(first, d.totalOrders, d.averageOrderValue, RecentSales(d.orders, 0))),
                    fetched.calls)
  }

  /** A customer with both names, neither padded with whitespace, is shown as
      the two names separated by one space. */
  lemma FullName(first: string, last: string, email: Option<string>)
    requires first != "" && last != ""
    requires !Text.IsWhitespace(first[0]) && !Text.IsWhitespace(last[|last| - 1])
    ensures CustomerName(Some(Customer(Some(first), Some(last), email))) == first + " " + last
  {
    var s := first + " " + last;
    assert s[0] == first[0] && s[|s| - 1] == last[|last| - 1];
    Text.TrimNoSurroundingWhitespace(s);
  }

  /** Trimming is determined by where the non-whitespace text sits. */
  lemma TrimIs(s: string, r: string, i: nat)
    requires r != [] && !Text.IsWhitespace(r[0]) && !Text.IsWhitespace(r[|r| - 1])
    requires Text.TrimmedAt(s, r, i)
    ensures Text.Trim(s) == r
  {
    var n := Text.LeadingWhitespace(s);
    assert s[i] == r[0];
    assert n == i;
    var rest := s[i..];
    var j := Text.TrailingWhitespace(rest);
    assert rest[|r| - 1] == r[|r| - 1];
    assert forall k :: |r| <= k < |rest| ==> rest[k] == s[i + k];
    assert j == |rest| - |r|;
    assert rest[..|rest| - j] == r;
  }

  /** A customer with only a first name is shown by it alone. */
  lemma FirstNameOnly(first: string, last: Option<string>, email: Option<string>)
    requires first != "" && !Text.IsWhitespace(first[0]) && !Text.IsWhitespace(first[|first| - 1])
    requires !Truthy(last)
    ensures CustomerName(Some(Customer(Some(first), last, email))) == first
  {
    var s := first + " " + "";
    assert s == first + " ";
    assert Text.TrimmedAt(s, first, 0) by {
      assert s[0..|first|] == first;
    }
    TrimIs(s, first, 0);
  }

  /** An order without a customer shows an empty name and `No email`. */
  lemma NoCustomer()
    ensures CustomerName(None) == "" && CustomerEmail(None) == "No email"
  {
    assert Text.LeadingWhitespace(" ") == 1;
  }

  /** Sales at different positions get different avatars. */
  lemma AvatarsDistinct(i: nat, j: nat)
    requires i != j
    ensures Avatar(i) != Avatar(j)
  {
    var a := Text.DecimalString(i + 2);
    var b := Text.DecimalString(j + 2);
    Text.DecimalInjective(i + 2, j + 2);
    var p := |AvatarPrefix|;
    if |a| != |b| {
      assert |Avatar(i)| != |Avatar(j)|;
    } else {
      assert Avatar(i)[p..p + |a|] == a;
      assert Avatar(j)[p..p + |b|] == b;
    }
  }

  // ----- Products -----

  datatype ProductNode = ProductNode(id: string, title: string, firstVariantPrice: Option<string>,
                                     totalInventory: Option<int>)

  /** A product row; the price is kept as the text `parseFloat` reads. */
  datatype Product = Product(id: string, name: string, priceText: string, inventory: int)

  function ProductOf(node: ProductNode): (p: Product)
    ensures p.id == node.id && p.name == node.title
    ensures p.priceText != ""
    ensures Truthy(node.firstVariantPrice) ==> p.priceText == node.firstVariantPrice.value
    ensures !Truthy(node.firstVariantPrice) ==> p.priceText == "0"
    ensures node.totalInventory.None? ==> p.inventory == 0
    ensures node.totalInventory.Some? ==> p.inventory == node.totalInventory.value
  {
    Product(node.id, node.title, if Truthy(node.firstVariantPrice) then node.firstVariantPrice.value else "0",
            if node.totalInventory.Some? && node.totalInventory.value != 0 then node.totalInventory.value else 0)
  }

  /** `getProducts(shopDomain, count)`: one row per product node, in order, or
      the empty list on any failure. */
  function GetProducts(shop: string, count: nat, fault: StoreFault, store: Store,
                       reply: GraphQLReply<seq<ProductNode>>): (o: ActionOutcome<seq<Product>>)
    ensures DataFetch(fault, store, shop, ProductsQuery(count), reply).result.Err? ==> o.result == []
    ensures DataFetch(fault, store, shop, ProductsQuery(count), reply).result.Ok? ==>
      |o.result| == |reply.data| && forall k :: 0 <= k < |reply.data| ==> o.result[k] == ProductOf(reply.data[k])
  {
    var fetched := DataFetch(fault, store, shop, ProductsQuery(count), reply);
    match fetched.result
    case Err(_) => ActionOutcome([], fetched.calls)
    case Ok(nodes) => ActionOutcome(Seqs.Map(ProductOf, nodes), fetched.calls)
  }

  /** On success the products listed are the nodes the platform returned, in
      its order, and a product without a priced first variant shows price "0". */
  lemma ProductsFollowNodes(shop: string, count: nat, fault: StoreFault, store: Store,
                            reply: GraphQLReply<seq<ProductNode>>)
    requires DataFetch(fault, store, shop, ProductsQuery(count), reply).result.Ok?
    ensures var rows := GetProducts(shop, count, fault, store, reply).result;
            Seqs.Map((p: Product) => p.id, rows) == Seqs.Map((n: ProductNode) => n.id, reply.data)
            && forall k :: 0 <= k < |rows| && !Truthy(reply.data[k].firstVariantPrice) ==> rows[k].priceText == "0"
  {
  }

  // ----- Discount codes -----

  /** The fields the `... on DiscountCodeBasic` fragment selects. */
  datatype BasicCode = BasicCode(title: string, status: string, asyncUsageCount: int)

  /** A `codeDiscountNodes` node; `basic` is `None` for any other kind of code
      discount, whose `codeDiscount` then arrives as an empty object. */
  datatype DiscountNode = DiscountNode(id: string, basic: Option<BasicCode>)

  /** A discount row; `None` stands for a field that is `undefined`. */
  datatype Discount = Discount(id: string, code: Option<string>, title: Option<string>, status: Option<string>,
                               usageCount: Option<int>)

  /** The title a node's `codeDiscount` carries, if any. */
  function TitleOf(node: DiscountNode): Option<string> {
    if node.basic.Some? then Some(node.basic.value.title) else None
  }

  function DiscountOf(node: DiscountNode): (d: Discount)
    ensures d.id == node.id && d.code == d.title
    ensures node.basic.Some? ==>
      d.title == Some(node.basic.value.title) && d.status == Some(node.basic.value.status)
      && d.usageCount == Some(node.basic.value.asyncUsageCount)
    ensures node.basic.None? ==> d.title.None? && d.status.None? && d.usageCount.None?
  {
    match node.basic
    case None => Discount(node.id, None, None, None, None)
    case Some(b) => Discount(node.id, Some(b.title), Some(b.title), Some(b.status), Some(b.asyncUsageCount))
  }

  /** `getDiscountCodes(shopDomain, count)`: one row per node, in order, with
      the title shown as the code, or the empty list on any failure. */
  function GetDiscountCodes(shop: string, count: nat, fault: StoreFault, store: Store,
                            reply: GraphQLReply<seq<DiscountNode>>): (o: ActionOutcome<seq<Discount>>)
    ensures DataFetch(fault, store, shop, DiscountCodesQuery(count), reply).result.Err? ==> o.result == []
    ensures DataFetch(fault, store, shop, DiscountCodesQuery(count), reply).result.Ok? ==>
      |o.result| == |reply.data|
      && forall k :: 0 <= k < |reply.data| ==> o.result[k] == DiscountOf(reply.data[k])
  {
    var fetched := DataFetch(fault, store, shop, DiscountCodesQuery(count), reply);
    match fetched.result
    case Err(_) => ActionOutcome([], fetched.calls)
    case Ok(nodes) => ActionOutcome(Seqs.Map(DiscountOf, nodes), fetched.calls)
  }

  /** The codes listed are the discount titles the platform returned, in its
      order (undefined for a discount of another kind), and each row's code is
      its title. */
  lemma DiscountCodesAreTitles(shop: string, count: nat, fault: StoreFault, store: Store,
                               reply: GraphQLReply<seq<DiscountNode>>)
    requires DataFetch(fault, store, shop, DiscountCodesQuery(count), reply).result.Ok?
    ensures var rows := GetDiscountCodes(shop, count, fault, store, reply).result;
            Seqs.Map((d: Discount) => d.code, rows) == Seqs.Map(TitleOf, reply.data)
            && forall k :: 0 <= k < |rows| ==> rows[k].code == rows[k].title
  {
  }

  // ----- Discount creation -----

  datatype DiscountKind = Percentage | FixedAmount

  /** What the discount form submits. */
  datatype DiscountInput = DiscountInput(code: string, kind: DiscountKind, value: real)

  /** `data.discountCodeBasicCreate`: its user errors and the created title. */
  datatype DiscountCreateReply = DiscountCreateReply(userErrors: Option<seq<string>>, createdTitle: Option<string>)

  /** `{ success: true, code }` or `{ success: false, error }`. */
  datatype DiscountResult = Created(code: Option<string>) | NotCreated(error: string)

  const PercentageRange := "Percentage value must be between 0 and 100."

  /** The range check: a percentage must lie in (0, 100]. */
  predicate ValidValue(input: DiscountInput) {
    input.kind == Percentage ==> 0.0 < input.value <= 100.0
  }

  /** The `basicCodeDiscount` variable; `now` is the ISO time of the request. */
  function DiscountRequestFor(input: DiscountInput, now: string): (r: DiscountRequest)
    requires ValidValue(input)
    ensures r.title == input.code && r.code == input.code && r.startsAt == now
    ensures r.allCustomers && r.allItems && r.appliesOncePerCustomer
    ensures input.kind == Percentage ==>
      r.value.PercentageOff? && 0.0 < r.value.fraction <= 1.0 && r.value.fraction * 100.0 == input.value
    ensures input.kind == FixedAmount ==>
      r.value == AmountOff(input.value, "USD")
  {
    var value := if input.kind == Percentage then PercentageOff(input.value / 100.0) else AmountOff(input.value, "USD");
    DiscountRequest(input.code, input.code, now, true, value, true, true)
  }

  /** `createDiscountCode(shopDomain, discount)`. It looks the shop up, checks
      a percentage's range before any platform call, then creates the code;
      every failure becomes `{ success: false, error }`. */
  function CreateDiscountCode(shop: string, input: DiscountInput, now: string, fault: StoreFault, store: Store,
                              reply: GraphQLReply<DiscountCreateReply>): (o: ActionOutcome<DiscountResult>)
    ensures GetShopData(fault, store, shop).Ok? && !ValidValue(input) ==>
      o == ActionOutcome(NotCreated(PercentageRange), [QueryShops(shop)])
    ensures GetShopData(fault, store, shop).Err? ==>
      o == ActionOutcome(NotCreated(GetShopData(fault, store, shop).message), [QueryShops(shop)])
    ensures o.result.Created? <==>
      ValidValue(input) && GetShopData(fault, store, shop).Ok?
      && reply.Reply? && reply.errors.None? && !HasUserErrors(reply.userErrors)
      && !HasUserErrors(reply.data.userErrors)
    ensures o.result.Created? ==> o.result.code == reply.data.createdTitle
    ensures forall c :: c in o.calls && c.AdminGraphQL? ==>
      ValidValue(input) && c.operation == DiscountCodeBasicCreate(DiscountRequestFor(input, now))
  {
    match GetShopData(fault, store, shop)
    case Err(m) => ActionOutcome(NotCreated(m), [QueryShops(shop)])
    case Ok(_) =>
      if !ValidValue(input) then ActionOutcome(NotCreated(PercentageRange), [QueryShops(shop)])
      else
        var fetched := DataFetch(fault, store, shop, DiscountCodeBasicCreate(DiscountRequestFor(input, now)), reply);
        var calls := [QueryShops(shop)] + fetched.calls;
        match fetched.result
        case Err(m) => ActionOutcome(NotCreated(m), calls)
        case Ok(d) =>
          if HasUserErrors(d.userErrors) then ActionOutcome(NotCreated(d.userErrors.value[0]), calls)
          else ActionOutcome(Created(d.createdTitle), calls)
  }

  /** A percentage outside (0, 100] never reaches the platform. */
  lemma PercentageOutOfRange(shop: string, code: string, value: real, now: string, store: Store,
                             reply: GraphQLReply<DiscountCreateReply>)
    requires value <= 0.0 || value > 100.0
    requires FindFirst(store, shop).Some? && store[FindFirst(store, shop).value].accessToken != ""
    ensures var o := CreateDiscountCode(shop, DiscountInput(code, Percentage, value), now, Healthy, store, reply);
            o.result == NotCreated(PercentageRange) && !MakesPlatformCall(o.calls)
  {
  }

  /** Any fixed amount is accepted and sent in US dollars. */
  lemma FixedAmountAlwaysSent(shop: string, code: string, value: real, now: string, store: Store,
                              reply: GraphQLReply<DiscountCreateReply>)
    requires FindFirst(store, shop).Some? && store[FindFirst(store, shop).value].accessToken != ""
    ensures var o := CreateDiscountCode(shop, DiscountInput(code, FixedAmount, value), now, Healthy, store, reply);
            |o.calls| == 3 && o.calls[2].AdminGraphQL?
            && o.calls[2].operation.discount.value == AmountOff(value, "USD")
  {
  }

  /** A valid value for a known shop, answered without errors of either kind,
      creates the code the platform names. */
  lemma DiscountCreated(shop: string, input: DiscountInput, now: string, store: Store, title: Option<string>)
    requires ValidValue(input)
    requires FindFirst(store, shop).Some? && store[FindFirst(store, shop).value].accessToken != ""
    ensures var o := CreateDiscountCode(shop, input, now, Healthy, store,
                                        Reply(None, None, DiscountCreateReply(None, title)));
            o.result == Created(title)
            && o.calls[|o.calls| - 1]
               == AdminGraphQL(shop, store[FindFirst(store, shop).value].accessToken,
                               DiscountCodeBasicCreate(DiscountRequestFor(input, now)))
  {
  }

  /** The user errors of the mutation are reported by their first message. */
  lemma DiscountUserErrors(shop: string, input: DiscountInput, now: string, store: Store,
                           errs: seq<string>, title: Option<string>)
    requires ValidValue(input) && |errs| > 0
    requires FindFirst(store, shop).Some? && store[FindFirst(store, shop).value].accessToken != ""
    ensures CreateDiscountCode(shop, input, now, Healthy, store,
                               Reply(None, None, DiscountCreateReply(Some(errs), title))).result
            == NotCreated(errs[0])
  {
  }
}
