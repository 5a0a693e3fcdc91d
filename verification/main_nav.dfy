/** The sidebar menu: the fixed `menuItems` table and the
    filter / map / filter pipeline that computes the items a plan may see. */
module MainNav {
  import opened Wrappers
  import opened Plans
  import opened Seqs

  /** A menu entry; `caption` is the source's `label`. */
  datatype SubItem = SubItem(href: Option<string>, caption: string, requiredPlan: Plan)

  datatype MenuItem = MenuItem(
    href: Option<string>,
    caption: string,
    requiredPlan: Plan,
    subItems: Option<seq<SubItem>>)

  const SalesPrediction := SubItem(Some("/predict-sales"), "Sales Prediction", Growth)
  const PricingSuggestions := SubItem(Some("/pricing-suggestions"), "Pricing Suggestions", Growth)
  const AovOptimization := SubItem(Some("/aov-optimization"), "AOV Optimization", Pro)

  const Dashboard := MenuItem(Some("/dashboard"), "Dashboard", Basic, None)
  const Discounts := MenuItem(Some("/discounts"), "Discounts", Basic, None)
  const AiTools := MenuItem(None, "AI Tools", Growth,
                            Some([SalesPrediction, PricingSuggestions, AovOptimization]))
  const Pricing := MenuItem(Some("/pricing"), "Pricing", Basic, None)

  /** `menuItems`, in display order. */
  const Menu: seq<MenuItem> := [Dashboard, Discounts, AiTools, Pricing]

  /** `planHierarchy[plan] || 1`. A table key gives its level and a name the
      table lacks falls back to basic. An inherited property name yields a truthy
      non-number that no `>=` comparison accepts; it is modelled as level 0,
      below every plan. */
  function UserLevel(plan: string): (n: nat)
    ensures n <= 3
    ensures n == 0 <==> plan in InheritedKeys
    ensures Lookup(plan).Some? ==> n == Level(Lookup(plan).value)
    ensures Lookup(plan).None? && plan !in InheritedKeys ==> n == 1
  {
    match Lookup(plan)
    case Some(p) =>
      NamesNotInherited(p);
      Level(p)
    case None => if plan in InheritedKeys then 0 else 1
  }

  /** `userLevel >= planHierarchy[requiredPlan]`. */
  predicate Allows(level: nat, required: Plan) {
    level >= Level(required)
  }

  /** The `.map` step: an item with sub-items keeps exactly the allowed ones, in
      their order; an item without is returned as it is. */
  function RestrictSubItems(level: nat, item: MenuItem): (r: MenuItem)
    ensures r.href == item.href && r.caption == item.caption && r.requiredPlan == item.requiredPlan
    ensures r.subItems.None? <==> item.subItems.None?
    ensures item.subItems.None? ==> r == item
    ensures r.subItems.Some? ==> forall k :: 0 <= k < |r.subItems.value| ==>
              r.subItems.value[k] in item.subItems.value && Allows(level, r.subItems.value[k].requiredPlan)
    ensures item.subItems.Some? ==>
              && (forall k :: 0 <= k < |item.subItems.value| && Allows(level, item.subItems.value[k].requiredPlan)
                    ==> item.subItems.value[k] in r.subItems.value)
              && IsSubsequence(r.subItems.value, item.subItems.value)
  {
    match item.subItems
    case None => item
    case Some(subs) =>
      var allows := (s: SubItem) => Allows(level, s.requiredPlan);
      FilterIsSubsequence(allows, subs);
      item.(subItems := Some(Filter(allows, subs)))
  }

  /** The last `.filter`: `!item.subItems || item.subItems.length > 0`. */
  predicate NoSubItemsOrSome(item: MenuItem) {
    item.subItems.None? || |item.subItems.value| > 0
  }

  /** `availableMenuItems` for a user level over an item table. */
  function Available(level: nat, items: seq<MenuItem>): seq<MenuItem> {
    var allowed := Filter((it: MenuItem) => Allows(level, it.requiredPlan), items);
    var restricted := Map((it: MenuItem) => RestrictSubItems(level, it), allowed);
    Filter(NoSubItemsOrSome, restricted)
  }

  /** The menu shown to a user on `plan`. */
  function AvailableMenuItems(plan: string): seq<MenuItem> {
    Available(UserLevel(plan), Menu)
  }

  /** Which input items survive the pipeline, stated per item through its own
      filter and map steps. */
  predicate Kept(level: nat, item: MenuItem) {
    Allows(level, item.requiredPlan) && NoSubItemsOrSome(RestrictSubItems(level, item))
  }

  function Labels(items: seq<MenuItem>): seq<string> {
    Map((it: MenuItem) => it.caption, items)
  }

  /** The pipeline equals: keep the items the reference predicate keeps, then
      restrict their sub-items. */
  lemma AvailableIsRestrictedFilter(level: nat, items: seq<MenuItem>)
    ensures Available(level, items)
         == Map((it: MenuItem) => RestrictSubItems(level, it), Filter((it: MenuItem) => Kept(level, it), items))
  {
    var allow := (it: MenuItem) => Allows(level, it.requiredPlan);
    var restrict := (it: MenuItem) => RestrictSubItems(level, it);
    var composed := (it: MenuItem) => NoSubItemsOrSome(RestrictSubItems(level, it));
    var kept := (it: MenuItem) => Kept(level, it);
    var allowed := Filter(allow, items);
    FilterMap(NoSubItemsOrSome, restrict, composed, allowed);
    FilterFilter(allow, composed, kept, items);
  }

  /** Every item shown is allowed at the user's level, every sub-item shown is
      allowed too, and no item is shown with an empty sub-item list. */
  lemma AvailableOnlyAllowed(level: nat, items: seq<MenuItem>)
    ensures forall k :: 0 <= k < |Available(level, items)| ==>
              var r := Available(level, items)[k];
              && Allows(level, r.requiredPlan)
              && NoSubItemsOrSome(r)
              && (r.subItems.Some? ==> forall j :: 0 <= j < |r.subItems.value| ==>
                    Allows(level, r.subItems.value[j].requiredPlan))
  {
    AvailableIsRestrictedFilter(level, items);
  }

  /** An allowed item without sub-items is shown unchanged. */
  lemma LeafItemsPassThrough(level: nat, items: seq<MenuItem>)
    ensures forall k :: 0 <= k < |items| && items[k].subItems.None? && Allows(level, items[k].requiredPlan)
              ==> items[k] in Available(level, items)
  {
    AvailableIsRestrictedFilter(level, items);
    var restrict := (it: MenuItem) => RestrictSubItems(level, it);
    var kept := Filter((it: MenuItem) => Kept(level, it), items);
    forall k | 0 <= k < |items| && items[k].subItems.None? && Allows(level, items[k].requiredPlan)
      ensures items[k] in Available(level, items)
    {
      assert Kept(level, items[k]);
      var j :| 0 <= j < |kept| && kept[j] == items[k];
      assert Map(restrict, kept)[j] == items[k];
    }
  }

  lemma {:induction false} LabelsOfRestricted(level: nat, items: seq<MenuItem>)
    ensures Labels(Map((it: MenuItem) => RestrictSubItems(level, it), items)) == Labels(items)
  {
  }

  /** The menu shown is a sub-list of the input table, in the table's order. */
  lemma AvailablePreservesOrder(level: nat, items: seq<MenuItem>)
    ensures IsSubsequence(Labels(Available(level, items)), Labels(items))
  {
    var kept := Filter((it: MenuItem) => Kept(level, it), items);
    AvailableIsRestrictedFilter(level, items);
    LabelsOfRestricted(level, kept);
    FilterIsSubsequence((it: MenuItem) => Kept(level, it), items);
    MapPreservesSubsequence((it: MenuItem) => it.caption, kept, items);
  }

  /** A higher level keeps every item a lower level keeps, and every sub-item. */
  lemma KeptMonotone(low: nat, high: nat, item: MenuItem)
    requires low <= high
    ensures Kept(low, item) ==> Kept(high, item)
    ensures item.subItems.Some? ==>
              IsSubsequence(RestrictSubItems(low, item).subItems.value, RestrictSubItems(high, item).subItems.value)
  {
    if item.subItems.Some? {
      var subs := item.subItems.value;
      var pl := (s: SubItem) => Allows(low, s.requiredPlan);
      var ph := (s: SubItem) => Allows(high, s.requiredPlan);
      FilterMonotone(pl, ph, subs);
      if |Filter(pl, subs)| > 0 {
        var x := Filter(pl, subs)[0];
        assert x in Filter(ph, subs);
      }
    }
  }

  /** A higher plan never sees fewer menu entries than a lower one: the captions
      shown at the lower level are a sub-list of those shown at the higher. */
  lemma AvailableMonotone(low: nat, high: nat, items: seq<MenuItem>)
    requires low <= high
    ensures IsSubsequence(Labels(Available(low, items)), Labels(Available(high, items)))
  {
    var kl := (it: MenuItem) => Kept(low, it);
    var kh := (it: MenuItem) => Kept(high, it);
    forall k | 0 <= k < |items| ensures kl(items[k]) ==> kh(items[k]) {
      KeptMonotone(low, high, items[k]);
    }
    FilterMonotone(kl, kh, items);
    AvailableIsRestrictedFilter(low, items);
    AvailableIsRestrictedFilter(high, items);
    LabelsOfRestricted(low, Filter(kl, items));
    LabelsOfRestricted(high, Filter(kh, items));
    MapPreservesSubsequence((it: MenuItem) => it.caption, Filter(kl, items), Filter(kh, items));
  }

  /** Which of the four entries of `Menu` the pipeline keeps at a level. */
  lemma KeptOnMenu(level: nat)
    ensures Filter((it: MenuItem) => Kept(level, it), Menu)
         == (if Kept(level, Dashboard) then [Dashboard] else [])
          + ((if Kept(level, Discounts) then [Discounts] else [])
          + ((if Kept(level, AiTools) then [AiTools] else [])
          + ((if Kept(level, Pricing) then [Pricing] else []) + [])))
  {
    var kept := (it: MenuItem) => Kept(level, it);
    assert Menu == [Dashboard] + ([Discounts] + ([AiTools] + ([Pricing] + [])));
    FilterCons(kept, Pricing, []);
    FilterCons(kept, AiTools, [Pricing] + []);
    FilterCons(kept, Discounts, [AiTools] + ([Pricing] + []));
    FilterCons(kept, Dashboard, [Discounts] + ([AiTools] + ([Pricing] + [])));
  }

  /** The AI Tools sub-items shown at a level. */
  lemma AiToolsAt(level: nat)
    ensures RestrictSubItems(level, AiTools).subItems.value
         == (if Allows(level, Growth) then [SalesPrediction, PricingSuggestions] else [])
          + (if Allows(level, Pro) then [AovOptimization] else [])
  {
    var allows := (s: SubItem) => Allows(level, s.requiredPlan);
    assert AiTools.subItems.value == [SalesPrediction] + ([PricingSuggestions] + ([AovOptimization] + []));
    FilterCons(allows, AovOptimization, []);
    FilterCons(allows, PricingSuggestions, [AovOptimization] + []);
    FilterCons(allows, SalesPrediction, [PricingSuggestions] + ([AovOptimization] + []));
  }

  /** At level 1 the AI Tools entry loses all its sub-items and is dropped. */
  lemma BasicKept()
    ensures Filter((it: MenuItem) => Kept(1, it), Menu) == [Dashboard] + ([Discounts] + ([Pricing] + []))
  {
    AiToolsAt(1);
    assert !Kept(1, AiTools);
    KeptOnMenu(1);
  }

  /** A plan named after an inherited property sees no menu at all: the level
      check fails for every entry. */
  lemma InheritedKeyMenu(plan: string)
    requires plan in InheritedKeys
    ensures AvailableMenuItems(plan) == []
  {
    assert UserLevel(plan) == 0;
    AvailableIsRestrictedFilter(0, Menu);
    KeptOnMenu(0);
  }

  /** Basic sees Dashboard, Discounts and Pricing. */
  lemma BasicMenu()
    ensures AvailableMenuItems("basic") == [Dashboard, Discounts, Pricing]
  {
    var restrict := (it: MenuItem) => RestrictSubItems(1, it);
    assert UserLevel("basic") == 1;
    AvailableIsRestrictedFilter(1, Menu);
    BasicKept();
    MapCons(restrict, Pricing, []);
    MapCons(restrict, Discounts, [Pricing] + []);
    MapCons(restrict, Dashboard, [Discounts] + ([Pricing] + []));
  }

  /** The AI Tools entry as a growth user sees it. */
  const GrowthAiTools := AiTools.(subItems := Some([SalesPrediction, PricingSuggestions]))

  lemma AiToolsRestricted()
    ensures RestrictSubItems(2, AiTools) == GrowthAiTools
    ensures RestrictSubItems(3, AiTools) == AiTools
  {
    AiToolsAt(2);
    AiToolsAt(3);
    assert [SalesPrediction, PricingSuggestions] + [] == [SalesPrediction, PricingSuggestions];
    assert [SalesPrediction, PricingSuggestions] + [AovOptimization] == AiTools.subItems.value;
  }

  /** The whole table passes the filters at levels 2 and 3. */
  lemma AllKeptAbove(level: nat)
    requires level == 2 || level == 3
    ensures Filter((it: MenuItem) => Kept(level, it), Menu) == Menu
  {
    AiToolsRestricted();
    assert Kept(level, AiTools);
    KeptOnMenu(level);
  }

  /** Growth also sees AI Tools with Sales Prediction and Pricing Suggestions. */
  lemma GrowthMenu()
    ensures AvailableMenuItems("growth") == [Dashboard, Discounts, GrowthAiTools, Pricing]
  {
    var restrict := (it: MenuItem) => RestrictSubItems(2, it);
    assert UserLevel("growth") == 2;
    AvailableIsRestrictedFilter(2, Menu);
    AllKeptAbove(2);
    AiToolsRestricted();
    assert Menu == [Dashboard] + ([Discounts] + ([AiTools] + ([Pricing] + [])));
    MapCons(restrict, Pricing, []);
    MapCons(restrict, AiTools, [Pricing] + []);
    MapCons(restrict, Discounts, [AiTools] + ([Pricing] + []));
    MapCons(restrict, Dashboard, [Discounts] + ([AiTools] + ([Pricing] + [])));
  }

  /** Pro sees the whole table, AOV Optimization included. */
  lemma ProMenu()
    ensures AvailableMenuItems("pro") == Menu
  {
    var restrict := (it: MenuItem) => RestrictSubItems(3, it);
    assert UserLevel("pro") == 3;
    AvailableIsRestrictedFilter(3, Menu);
    AllKeptAbove(3);
    AiToolsRestricted();
    assert Menu == [Dashboard] + ([Discounts] + ([AiTools] + ([Pricing] + [])));
    MapCons(restrict, Pricing, []);
    MapCons(restrict, AiTools, [Pricing] + []);
    MapCons(restrict, Discounts, [AiTools] + ([Pricing] + []));
    MapCons(restrict, Dashboard, [Discounts] + ([AiTools] + ([Pricing] + [])));
  }
}
