/** `PlanGuard`: renders a page's content when the user's plan reaches the
    required plan, and an upgrade card linking to the pricing page otherwise. */
module PlanGuard {
  import opened Wrappers
  import opened Plans
  import opened Text
  import MainNav

  datatype View =
    | Content
    | UpgradeCard(featureName: string, requiredLabel: string, currentLabel: string, upgradeHref: string)

  /** `userPlan || 'basic'`: an absent or empty plan reads as basic. */
  function CurrentPlan(userPlan: Option<string>): (p: string)
    ensures p != ""
    ensures userPlan.Some? && userPlan.value != "" ==> p == userPlan.value
  {
    if userPlan.Some? && userPlan.value != "" then userPlan.value else "basic"
  }

  /** `s.charAt(0).toUpperCase() + s.slice(1)`. */
  function Capitalize(s: string): (r: string)
    ensures |r| == |s|
    ensures s != [] ==> r[0] == UpperChar(s[0]) && r[1..] == s[1..]
  {
    if s == [] then [] else [UpperChar(s[0])] + s[1..]
  }

  /** The guard's decision. `planHierarchy[currentPlan]` is `undefined` for a name
      outside the table, and `undefined >= n` is false. */
  function Guard(userPlan: Option<string>, requiredPlan: Plan, shop: string, featureName: string): (v: View)
    ensures v.Content? <==> exists p :: Lookup(CurrentPlan(userPlan)) == Some(p) && Grants(p, requiredPlan)
    ensures v.UpgradeCard? ==>
              && v.upgradeHref == "/pricing?shop=" + shop
              && v.requiredLabel == Capitalize(Name(requiredPlan))
              && v.currentLabel == Capitalize(CurrentPlan(userPlan))
              && v.featureName == featureName
  {
    var current := CurrentPlan(userPlan);
    var userLevel := Lookup(current);
    if userLevel.Some? && Level(userLevel.value) >= Level(requiredPlan) then Content
    else UpgradeCard(featureName, Capitalize(Name(requiredPlan)), Capitalize(current), "/pricing?shop=" + shop)
  }

  /** For a user on a table plan, content is shown exactly when that plan
      grants the required one. */
  lemma GuardDecision(user: Plan, requiredPlan: Plan, shop: string, featureName: string)
    ensures Guard(Some(Name(user)), requiredPlan, shop, featureName).Content? <==> Grants(user, requiredPlan)
  {
    LookupName(user);
  }

  /** A missing or empty plan behaves exactly like `basic`. */
  lemma MissingPlanIsBasic(userPlan: Option<string>, requiredPlan: Plan, shop: string, featureName: string)
    requires userPlan.None? || userPlan.value == ""
    ensures Guard(userPlan, requiredPlan, shop, featureName)
         == Guard(Some("basic"), requiredPlan, shop, featureName)
  {
  }

  /** A page requiring basic is open to every table plan and to a missing plan. */
  lemma BasicAlwaysGranted(userPlan: Option<string>, shop: string, featureName: string)
    requires userPlan.None? || userPlan.value == "" || Lookup(userPlan.value).Some?
    ensures Guard(userPlan, Basic, shop, featureName) == Content
  {
  }

  /** The guard agrees with menu visibility whenever the plan is a table name,
      empty, or an inherited property name: both apply `>=` to the same
      hierarchy. */
  lemma GuardAgreesWithMenu(plan: string, requiredPlan: Plan, shop: string, featureName: string)
    requires plan == "" || Lookup(plan).Some? || plan in InheritedKeys
    ensures Guard(Some(plan), requiredPlan, shop, featureName).Content?
        <==> MainNav.Allows(MainNav.UserLevel(plan), requiredPlan)
  {
  }

  /** Where the two gates part: a non-empty plan outside the table locks every
      guarded page, basic ones included, while the menu treats it as basic unless
      it is an inherited property name, which empties the menu. */
  lemma UnknownPlanLockedOut(plan: string, requiredPlan: Plan, shop: string, featureName: string)
    requires plan != "" && Lookup(plan).None?
    ensures Guard(Some(plan), requiredPlan, shop, featureName).UpgradeCard?
    ensures plan !in InheritedKeys ==>
              MainNav.UserLevel(plan) == 1 && MainNav.Allows(MainNav.UserLevel(plan), Basic)
    ensures plan in InheritedKeys ==> MainNav.AvailableMenuItems(plan) == []
  {
    if plan in InheritedKeys {
      MainNav.InheritedKeyMenu(plan);
    }
  }

  /** Upgrading never locks a page that was open. */
  lemma GuardMonotone(low: Plan, high: Plan, requiredPlan: Plan, shop: string, featureName: string)
    requires Grants(high, low)
    ensures Guard(Some(Name(low)), requiredPlan, shop, featureName).Content?
        ==> Guard(Some(Name(high)), requiredPlan, shop, featureName).Content?
  {
    GuardDecision(low, requiredPlan, shop, featureName);
    GuardDecision(high, requiredPlan, shop, featureName);
  }

  /** The card shows the plan names as "Basic", "Growth", "Pro", and lower-casing
      the label gives back the stored name. */
  lemma PlanLabels(p: Plan)
    ensures Capitalize(Name(p)) == (match p case Basic => "Basic" case Growth => "Growth" case Pro => "Pro")
    ensures Lower(Capitalize(Name(p))) == Name(p)
  {
    var n := Name(p);
    assert n[1..] == (match p case Basic => "asic" case Growth => "rowth" case Pro => "ro");
    LowerOfLowerCase(n[1..]);
    assert Lower(Capitalize(n)) == [LowerChar(UpperChar(n[0]))] + Lower(n[1..]);
  }
}
