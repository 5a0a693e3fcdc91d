/** The three subscription tiers and the single access rule every gating point
    uses: a user on plan `u` may see a feature requiring plan `r` exactly when
    `planHierarchy[u] >= planHierarchy[r]`. */
module Plans {
  import opened Wrappers

  datatype Plan = Basic | Growth | Pro

  /** `planHierarchy`: basic 1, growth 2, pro 3. */
  function Level(p: Plan): (n: nat)
    ensures 1 <= n <= 3
  {
    match p
    case Basic => 1
    case Growth => 2
    case Pro => 3
  }

  /** The plan's key in `planHierarchy`, also the value stored in a shop record. */
  function Name(p: Plan): string {
    match p
    case Basic => "basic"
    case Growth => "growth"
    case Pro => "pro"
  }

  /** `planHierarchy[s]`: only the three lower-case keys are present. */
  function Lookup(s: string): (r: Option<Plan>)
    ensures r.Some? ==> Name(r.value) == s
    ensures r.None? ==> s != Name(Basic) && s != Name(Growth) && s != Name(Pro)
  {
    if s == "basic" then Some(Basic)
    else if s == "growth" then Some(Growth)
    else if s == "pro" then Some(Pro)
    else None
  }

  /** The property names a plain object literal inherits from `Object.prototype`.
      Indexing `planHierarchy` with one of them yields a function (or, for
      `__proto__`, the prototype object): a truthy value that is not a number, so
      every `>=` comparison against a level is false. */
  const InheritedKeys: set<string> := {
    "constructor", "hasOwnProperty", "isPrototypeOf", "propertyIsEnumerable",
    "toLocaleString", "toString", "valueOf", "__proto__",
    "__defineGetter__", "__defineSetter__", "__lookupGetter__", "__lookupSetter__"
  }

  /** No plan's key is an inherited property name. */
  lemma NamesNotInherited(p: Plan)
    ensures Name(p) !in InheritedKeys
  {
  }

  /** The `userLevel >= requiredLevel` rule. */
  predicate Grants(user: Plan, required: Plan) {
    Level(user) >= Level(required)
  }

  /** Looking up a plan's own name finds that plan. */
  lemma LookupName(p: Plan)
    ensures Lookup(Name(p)) == Some(p)
  {
  }

  /** The levels are strictly increasing basic < growth < pro, so distinct plans
      have distinct levels. */
  lemma LevelStrictlyIncreasing(p: Plan, q: Plan)
    ensures Level(p) < Level(q) <==> (p == Basic && q != Basic) || (p == Growth && q == Pro)
    ensures Level(p) == Level(q) <==> p == q
  {
  }

  /** The access rule is a total order on plans: reflexive, antisymmetric,
      transitive and total. */
  lemma GrantsIsTotalOrder(a: Plan, b: Plan, c: Plan)
    ensures Grants(a, a)
    ensures Grants(a, b) && Grants(b, a) ==> a == b
    ensures Grants(a, b) && Grants(b, c) ==> Grants(a, c)
    ensures Grants(a, b) || Grants(b, a)
  {
  }

  /** Basic is granted to everyone; Pro grants everything. */
  lemma GrantsExtremes(p: Plan)
    ensures Grants(p, Basic)
    ensures Grants(Pro, p)
  {
  }
}
