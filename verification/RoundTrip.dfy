/** What the whole engine is for: apply, any number of updates, restore, and
    everything is as before. */
module RoundTrip {
  import opened Dns
  import opened World
  import opened Durable
  import opened Backend
  import opened Live
  import opened Applying
  import opened Updating
  import opened Leases
  import opened Reconcile
  import opened Hosts

  /** Nobody interferes, nothing fails, nobody dies. */
  const Peace := Env(false, false, false, false, false)

  ghost predicate AllHeld(live: seq<LiveRecord>, originals: seq<DnsState>, plan: Plan)
    requires |live| == |originals|
    reads live, ResourcesOf(live)
  {
    forall i :: 0 <= i < |live| ==> Held(live[i], originals[i], plan)
  }

  lemma HeldIsReady(live: seq<LiveRecord>, originals: seq<DnsState>, plan: Plan, was: seq<View>)
    requires |live| == |originals| && AllHeld(live, originals, plan) && AllViewed(live, was)
    ensures forall i :: 0 <= i < |live| ==>
              && Usable(live[i])
              && was[i].state == Committed
              && AsApplied(was[i].native, was[i].record)
              && was[i].record.before.state == originals[i]
  {
    hide Usable, AsApplied;
    forall i | 0 <= i < |live|
      ensures Usable(live[i]) && was[i].state == Committed && AsApplied(was[i].native, was[i].record) && was[i].record.before.state == originals[i]
    {
      assert Held(live[i], originals[i], plan);
      assert was[i] == ViewOf(live[i]);
    }
  }

  /** A carried plan is held, if the resource was the lease's before. */
  lemma CarriedIsHeld(was: View, start: Native, live: LiveRecord, prior: Record, original: DnsState, plan: Plan)
    requires StartedFrom(was, start, prior) && Carried(start, live, Planned(prior, plan))
    requires was.state == Committed && AsApplied(was.native, was.record) && was.record.before.state == original
    requires live.res.native.foreign == start.foreign && live.state == Committed
    ensures Held(live, original, plan)
  {
    hide DurableOk;
  }

  lemma UnneededIsHeld(was: View, start: Native, live: LiveRecord, prior: Record, original: DnsState, plan: Plan)
    requires StartedFrom(was, start, prior) && Steady(start, live, prior)
    requires was.state == Committed && AsApplied(was.native, was.record) && was.record.before.state == original
    requires prior.applied.Some? && StateMatches(prior.applied.value.state, plan)
    ensures Held(live, original, plan)
  {
    hide DurableOk;
  }

  /** A peaceful update succeeds and changes nothing about the way back. */
  method UpdateHeld(live: seq<LiveRecord>, plan: Plan, ghost originals: seq<DnsState>, ghost previous: Plan)
    requires Apart(live) && |originals| == |live| && AllHeld(live, originals, previous)
    modifies live`record, live`state, ResourcesOf(live)`native, ResourcesOf(live)`files
    ensures AllHeld(live, originals, plan)
  {
    hide Usable, AsApplied, Held, StartedFrom, Steady, Carried, AllViewed, AllOrNothing;
    ghost var was := ViewsOf(live);
    HeldIsReady(live, originals, previous, was);
    var r;
    ghost var stage, priors, starts;
    r, stage, priors, starts := TransactUpdate(Peace, live, plan, was);
    UpdatedIsHeld(live, was, priors, starts, originals, plan, stage);
  }

  lemma UpdatedIsHeld(live: seq<LiveRecord>, was: seq<View>, priors: seq<Record>, starts: seq<Native>, originals: seq<DnsState>, plan: Plan, stage: Stage)
    requires |was| == |live| == |priors| == |starts| == |originals|
    requires forall i :: 0 <= i < |live| ==> StartedFrom(was[i], starts[i], priors[i]) && live[i].state == Committed
    requires forall i :: 0 <= i < |live| ==>
               was[i].state == Committed && AsApplied(was[i].native, was[i].record) && was[i].record.before.state == originals[i]
    requires stage in {Unneeded, MovedOver}
    requires stage == Unneeded ==> forall i :: 0 <= i < |live| ==>
               Steady(starts[i], live[i], priors[i]) && priors[i].applied.Some? && StateMatches(priors[i].applied.value.state, plan)
    requires stage == MovedOver ==> AllOrNothing(live, priors, plan, starts, Peace, stage) && QuietSince(live, starts)
    ensures AllHeld(live, originals, plan)
  {
    hide Held, StartedFrom, Steady, Carried, AsApplied;
    forall i | 0 <= i < |live| ensures Held(live[i], originals[i], plan) {
      if stage == MovedOver {
        assert ResourcesOf(live)[i] == live[i].res;
        CarriedIsHeld(was[i], starts[i], live[i], priors[i], originals[i], plan);
      } else {
        UnneededIsHeld(was[i], starts[i], live[i], priors[i], originals[i], plan);
      }
    }
  }

  /** The resource is as it was, and the journal does not know it. */
  ghost predicate AsBefore(res: Resource, original: DnsState)
    reads res
  {
    res.files == map[] && !res.locked && res.native.present && Last(res.native).state == original
  }

  lemma GivenIsAsBefore(live: LiveRecord, was: View, original: DnsState, out: Outcome<()>)
    requires Given(live, was, true, Peace, out) && AsApplied(was.native, was.record) && was.state == Committed
    requires was.record.before.state == original
    ensures out.Done? && AsBefore(live.res, original)
  {
  }

  /** A peaceful restoration goes all the way back. */
  method RestoreHeld(live: seq<LiveRecord>, locks: seq<Resource>, ghost originals: seq<DnsState>, ghost plan: Plan)
    requires Apart(live) && Matched(locks, live) && |originals| == |live| && AllHeld(live, originals, plan)
    requires forall i :: 0 <= i < |live| ==> live[i].res.locked
    modifies live, ResourcesOf(live)
    ensures forall i :: 0 <= i < |live| ==> AsBefore(live[i].res, originals[i])
  {
    hide Usable, AsApplied, Held, Given, Tally, AsBefore;
    ghost var was := ViewsOf(live);
    HeldIsReady(live, originals, plan, was);
    UsableAreOwned(live, locks);
    var r, kept, left;
    ghost var outs;
    r, kept, left, outs := EndAll(Peace, live, locks, true, was);
    forall i | 0 <= i < |live| ensures AsBefore(live[i].res, originals[i]) {
      GivenIsAsBefore(live[i], was[i], originals[i], outs[i]);
    }
  }

  lemma UsableAreOwned(live: seq<LiveRecord>, locks: seq<Resource>)
    requires Apart(live) && Matched(locks, live)
    requires forall i :: 0 <= i < |live| ==> Usable(live[i]) && live[i].res.locked
    ensures Owned(live, locks)
  {
    hide LiveRecord.Valid, Matched, Apart;
  }

  /** Apply the first plan, update to the others in turn, restore: without
      interference, failures and deaths, every resource shows what it showed
      before, whatever the plans were, and the journal is empty again. */
  method ThereAndBack(resources: seq<Resource>, owner: string, lease: nat, plans: seq<Plan>)
    requires Distinct(resources) && plans != []
    requires forall i :: 0 <= i < |resources| ==>
               && resources[i].locked
               && resources[i].native.present
               && resources[i].files == map[]
               && DurableOk(resources[i].native, map[])
    modifies resources
    ensures forall i :: 0 <= i < |resources| ==> AsBefore(resources[i], Last(old(resources[i].native)).state)
  {
    hide DurableOk, Held, AsBefore, Granted;
    ghost var originals := StatesOf(resources);
    var applied := ApplyLocked(Peace, owner, lease, resources, plans[0]);
    var live := applied.value.live;
    GrantedIsMatched(live, resources, owner, lease, plans[0]);
    for k := 1 to |plans|
      invariant AllHeld(live, originals, plans[k - 1])
      invariant forall i :: 0 <= i < |resources| ==> resources[i].locked
    {
      UpdateHeld(live, plans[k], originals, plans[k - 1]);
    }
    RestoreHeld(live, resources, originals, plans[|plans| - 1]);
  }

  ghost function StatesOf(resources: seq<Resource>): (r: seq<DnsState>)
    reads resources
    ensures |r| == |resources|
    ensures forall i :: 0 <= i < |resources| ==> r[i] == Last(resources[i].native).state
  {
    if resources == [] then [] else [Last(resources[0].native).state] + StatesOf(resources[1..])
  }

  lemma GrantedIsMatched(live: seq<LiveRecord>, resources: seq<Resource>, owner: string, lease: nat, plan: Plan)
    requires Granted(live, resources, owner, lease, plan)
    ensures |live| == |resources| && Apart(live) && Matched(resources, live)
    ensures forall i :: 0 <= i < |live| ==> live[i].res == resources[i]
  {
    hide LiveRecord.Valid;
    forall l | l in live ensures l.res in resources {
      var i :| 0 <= i < |live| && live[i] == l;
    }
    forall x | x in resources ensures exists l :: l in live && l.res == x {
      var i :| 0 <= i < |resources| && resources[i] == x;
      assert live[i] in live;
    }
  }

  // ----- an update that stores nothing

  lemma GrantedOne(live: seq<LiveRecord>, res: Resource, owner: string, lease: nat, plan: Plan)
    requires Granted(live, [res], owner, lease, plan)
    ensures |live| == 1 && live[0].res == res && live[0].record.owner == owner && live[0].record.lease == lease && live[0].record.desired == plan
  {
    hide LiveRecord.Valid;
  }

  /** A plan that differs from the present one only in leaving the default route
      alone is shown already. */
  lemma LessIsShown(live: LiveRecord, original: DnsState, first: Plan)
    requires Held(live, original, first) && live.record.desired == first
    ensures Usable(live) && AsApplied(live.res.native, live.record) && live.state == Committed
    ensures live.record.applied.Some? && StateMatches(live.record.applied.value.state, first.(defaultRoute := None))
    ensures StateMatches(Last(live.res.native).state, first)
  {
    hide DurableOk;
  }

  lemma NothingMoved(live: seq<LiveRecord>, was: seq<View>, priors: seq<Record>, starts: seq<Native>, plan: Plan, stage: Stage)
    requires |live| == |was| == |priors| == |starts| == 1 && stage != Refused
    requires StartedFrom(was[0], starts[0], priors[0]) && was[0].state == Committed
    requires was[0].record.applied.Some? && StateMatches(was[0].record.applied.value.state, plan)
    requires stage == Unneeded <==> AlreadyShown(priors, plan)
    requires stage == Unneeded ==> Steady(starts[0], live[0], priors[0])
    ensures stage == Unneeded && live[0].record == was[0].record && live[0].res.native == was[0].native
  {
    hide DurableOk, LiveOk;
  }

  /** What rebases of a plan leave that was shown as `shown`. */
  lemma RebasesDiffer(first: Plan, shown: DnsState)
    requires first.defaultRoute.Some? && StateMatches(shown, first)
    ensures StateMatches(shown, first.(defaultRoute := None))
    ensures forall n, later: Record, s, from, env ::
              RebasedOn(n, later, s, from, env) && !env.failures && later.desired == first && RouteOf(later.before.state) != first.defaultRoute ==>
                later.applied.value.state != MergeState(later.before.state, first.(defaultRoute := None))
  {
    hide RebasedOn;
    forall n, later: Record, s, from, env | RebasedOn(n, later, s, from, env) && !env.failures && later.desired == first && RouteOf(later.before.state) != first.defaultRoute
      ensures later.applied.Some? && later.applied.value.state != MergeState(later.before.state, first.(defaultRoute := None))
    {
      RebaseAfterUnneeded(n, later, s, from, env, shown, first.(defaultRoute := None));
      RebasedCarries(n, later, s, from, env);
    }
  }

  lemma RebasedCarries(n: Native, r: Record, s: LiveState, from: nat, env: Env)
    requires RebasedOn(n, r, s, from, env)
    ensures r.applied.Some?
  {
  }

  /** Apply a plan that asks for the default route, then update to the same plan
      without asking for it. Nothing interferes and both succeed, but the record
      keeps the first plan; a later rebase onto a base with another default route
      therefore leaves something else than the second plan asks for. */
  method UpdateKeepsOldPlan(res: Resource, owner: string, lease: nat, first: Plan) returns (live: LiveRecord, r: Outcome<()>)
    requires DurableOk(res.native, map[]) && res.files == map[] && res.native.present && first.defaultRoute.Some?
    modifies res`native, res`files
    ensures r.Done? && live.res == res && live.record.desired == first != first.(defaultRoute := None)
    ensures StateMatches(Last(res.native).state, first) && StateMatches(Last(res.native).state, first.(defaultRoute := None))
    ensures forall n, later: Record, s, from, env ::
              RebasedOn(n, later, s, from, env) && !env.failures && later.desired == live.record.desired && RouteOf(later.before.state) != first.defaultRoute ==>
                later.applied.value.state != MergeState(later.before.state, first.(defaultRoute := None))
  {
    hide DurableOk, Held, Granted, StateMatches, RebasedOn;
    ghost var original := Last(res.native).state;
    var applied := ApplyLocked(Peace, owner, lease, [res], first);
    GrantedOne(applied.value.live, res, owner, lease, first);
    live := applied.value.live[0];
    assert live.res == [res][0];
    r := UpdateToLess(live, original, first);
    RebasesDiffer(live.record.desired, Last(res.native).state);
  }

  method UpdateToLess(live: LiveRecord, ghost original: DnsState, first: Plan) returns (r: Outcome<()>)
    requires Held(live, original, first) && live.record.desired == first
    modifies live`record, live`state, live.res`native, live.res`files
    ensures r.Done? && live.record == old(live.record) && live.res.native == old(live.res.native)
    ensures StateMatches(Last(live.res.native).state, first)
  {
    hide DurableOk, Held, StateMatches, Usable, AsApplied, Steady, StartedFrom, LiveOk, AlreadyShown, AllDesire, AllDesired;
    LessIsShown(live, original, first);
    ghost var was := ViewsOf([live]);
    ghost var stage, priors, starts;
    assert ResourcesOf([live])[0] == live.res;
    r, stage, priors, starts := TransactUpdate(Peace, [live], first.(defaultRoute := None), was);
    NothingMoved([live], was, priors, starts, first.(defaultRoute := None), stage);
  }
}
