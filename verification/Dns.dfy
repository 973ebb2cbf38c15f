/** Addresses, plans and the managed DNS state of one resource, with the
    merge that a mutation performs. */
module Dns {

  datatype Option<+T> = None | Some(value: T)

  newtype byte = i: int | 0 <= i < 0x100

  /** An IP address by its octets in network order. */
  datatype AnyIp = V4(octets: seq<byte>) | V6(octets: seq<byte>)

  predicate IsIp(ip: AnyIp) {
    |ip.octets| == if ip.V4? then 4 else 16
  }

  type Ip = ip: AnyIp | IsIp(ip) witness V4([0, 0, 0, 0])

  /** A domain suffix in canonical form; `""` stands for the root. */
  type Suffix = string

  const Root: Suffix := ""

  /** What a configuration asks for; `defaultRoute == None` leaves the flag alone. */
  datatype Plan = Plan(
    nameservers: seq<Ip>,
    search: seq<Suffix>,
    routing: seq<Suffix>,
    defaultRoute: Option<bool>)

  /** What a resource holds. */
  datatype DnsState =
    | Empty
    | Configured(nameservers: seq<Ip>, search: seq<Suffix>, routing: seq<Suffix>, defaultRoute: Option<bool>)

  function RouteOf(state: DnsState): Option<bool> {
    if state.Configured? then state.defaultRoute else None
  }

  /** The state with no field set has one representation, `Empty`. */
  function Make(nameservers: seq<Ip>, search: seq<Suffix>, routing: seq<Suffix>, route: Option<bool>): DnsState {
    if nameservers == [] && search == [] && routing == [] && route == None
    then Empty
    else Configured(nameservers, search, routing, route)
  }

  predicate Canonical(state: DnsState) {
    state.Configured? ==>
      state == Make(state.nameservers, state.search, state.routing, state.defaultRoute)
  }

  /** What applying `plan` over `current` leaves behind. */
  function MergeState(current: DnsState, plan: Plan): DnsState {
    var route := if plan.defaultRoute.Some? then plan.defaultRoute else RouteOf(current);
    Make(plan.nameservers, plan.search, plan.routing, route)
  }

  /** Whether `state` already expresses `plan`. */
  predicate StateMatches(state: DnsState, plan: Plan) {
    match state
    case Empty =>
      plan.nameservers == [] && plan.search == [] && plan.routing == [] && plan.defaultRoute == None
    case Configured(nameservers, search, routing, defaultRoute) =>
      && nameservers == plan.nameservers
      && search == plan.search
      && routing == plan.routing
      && (plan.defaultRoute.Some? ==> defaultRoute == plan.defaultRoute)
  }

  /** Applying a plan satisfies it, and a state satisfies a plan exactly when
      applying the plan would change nothing: the no-op decision of apply and
      update is neither too eager nor too lazy. */
  lemma MatchesIffMergeIsIdentity(state: DnsState, plan: Plan)
    requires Canonical(state)
    ensures StateMatches(MergeState(state, plan), plan)
    ensures StateMatches(state, plan) <==> MergeState(state, plan) == state
    ensures plan.defaultRoute.None? ==> RouteOf(MergeState(state, plan)) == RouteOf(state)
  {
    if StateMatches(state, plan) && state.Configured? {
      assert state == Make(state.nameservers, state.search, state.routing, state.defaultRoute);
    }
  }

  /** Two plans that one state satisfies can only differ in whether they ask for
      the default route, and laying them over another state gives the same
      exactly when that difference is immaterial there. */
  lemma SatisfiedTogether(shown: DnsState, one: Plan, other: Plan, base: DnsState)
    requires StateMatches(shown, one) && StateMatches(shown, other)
    ensures other == one.(defaultRoute := other.defaultRoute)
    ensures MergeState(base, one) == MergeState(base, other) <==>
            one.defaultRoute == other.defaultRoute || RouteOf(base) == RouteOf(shown)
  {
    if one.defaultRoute != other.defaultRoute {
      assert shown.Configured?;
    }
  }
}
