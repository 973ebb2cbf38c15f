/** Updating the live records of a lease: nothing happens unless the lease owns all
    of them; then all records, then all writes, and after a failure each resource
    and each record returns to what it was. */
module Updating {
  import opened Dns
  import opened World
  import opened Durable
  import opened Backend
  import opened Engine
  import opened Live
  import opened Lifecycle
  import opened Restoring
  import opened Reconcile
  import opened Applying

  /** What is published before an update writes. The `applied` of `prior` stays in
      it as evidence. */
  function Planned(prior: Record, plan: Plan): Record {
    prior.(desired := plan, phase := Phase.Prepared)
  }

  /** The record names a new intent, or still the old one. */
  predicate Restated(r: Record, prior: Record) {
    r == prior.(phase := r.phase, desired := r.desired)
  }

  /** The record carries a verified overlay. */
  predicate IsApplied(r: Record) {
    r.phase.Applied? && r.applied.Some? && StateMatches(r.applied.value.state, r.desired)
  }

  /** The journal still names the claim of `r`. */
  predicate Named(files: Files, r: Record) {
    forall l :: l in files ==> l == r.lease && files[l].before == r.before && files[l].identity == r.identity
  }

  /** What never changes about a resource during an update. */
  predicate Kept(n: Native, files: Files, prior: Record) {
    && DurableOk(n, files)
    && RecordOk(n, prior)
    && Covers(n, prior)
    && IsApplied(prior)
    && !n.disclaimed
    && Named(files, prior)
  }

  /** A resource that is still as its committed record says, whatever the
      update did to the journal. */
  predicate Parked(n: Native, files: Files, prior: Record) {
    && Kept(n, files, prior)
    && TracksCore(n, prior, Committed)
    && (StatusOf(n, prior.identity) == Same ==> prior.lease in files)
    && (prior.lease !in files ==> Settled(n, prior.before.state))
  }

  predicate AsApplied(n: Native, r: Record) {
    OwnsIfAny(n, r.applied) && StatusOf(n, r.identity) == Same
  }

  /** What the residue says: whether the resource is back at the overlay of
      `prior`. `a` is the resource before the update touched it. */
  predicate Recalled(a: Native, b: Native, prior: Record, residue: Residue, env: Env)
    requires prior.applied.Some?
  {
    match residue
    case Unchanged =>
      TracksCore(b, prior, Committed) && Foreign(a, b)
    case Restored(id) =>
      && Reached(b, prior.applied.value, id, prior.before.state)
      && (b.foreign == a.foreign ==>
            && StatusOf(b, prior.identity) == Same
            && Last(b).state == prior.applied.value.state
            && (id.Some? ==> Owns(b, id.value)))
      && (Undisturbed(env, a, b) && AsApplied(a, prior) ==> id.Some?)
    case Unresolved(p) =>
      && PendingOk(b, p, prior.before.state)
      && p.target == prior.applied.value
      && (Undisturbed(env, a, b) && AsApplied(a, prior) ==> OwnsIfAny(b, p.evidence) || Owns(b, p.target))
      && !(Quiet(env, a, b) && AsApplied(a, prior))
  }

  /** The resource after an update that failed. If nobody else wrote it and its
      rollback succeeded, it shows the overlay of `prior`. Unless the backend
      withheld an identity, the lease owns it in any case: as committed, or with
      a rollback that it can still finish. */
  predicate Reverted(a: Native, b: Native, r: Record, s: LiveState, prior: Record, env: Env) {
    && SameClaim(r, prior)
    && Later(a, b)
    && (Core(s).Committed? || Core(s).Unmutated? || Core(s).Compensating?)
    && (AsApplied(a, prior) && b.foreign == a.foreign && !Core(s).Compensating? ==>
          && StatusOf(b, prior.identity) == Same
          && Last(b).state == prior.applied.value.state)
    && (AsApplied(a, prior) && Undisturbed(env, a, b) ==> OwnsClaim(b, r, s) && !Core(s).Unmutated?)
    && (AsApplied(a, prior) && Quiet(env, a, b) ==> Core(s).Committed?)
  }

  /** The record that takes the lease back to `prior`. */
  function Reinstated(prior: Record, residue: Residue): Record {
    match residue
    case Restored(None) => prior.(phase := Phase.Prepared, applied := None)
    case Restored(id) => prior.(applied := id)
    case _ => prior
  }

  lemma ReinstatedOk(a: Native, b: Native, files: Files, f: Files, prior: Record, residue: Residue, env: Env, published: bool)
    requires Kept(b, files, prior) && Later(a, b) && Recalled(a, b, prior, residue, env) && !residue.Unresolved?
    requires StatusOf(b, prior.identity) == Same ==> prior.lease in files
    requires residue.Unchanged? ==> prior.lease !in files ==> Settled(b, prior.before.state)
    requires !residue.Unchanged? ==> prior.lease in files
    requires Published(files, f, Reinstated(prior, residue))
    requires published ==> f == files[prior.lease := Reinstated(prior, residue)]
    ensures var c := Reinstated(prior, residue);
            var s := if published then NextState(c) else Repair(NextState(c));
            && LiveOk(b, f, c, s, true)
            && Reverted(a, b, c, s, prior, env)
  {
    var c := Reinstated(prior, residue);
    if b.present && Last(b).writer.External? {
      assert StampOk(b, Generation(b));
      assert !Overlay(b);
    }
    ReinstatedRecord(b, files, prior, residue, a, env);
    if residue.Unchanged? && b.foreign == a.foreign {
      ForeignIsCounted(a, b);
    }
  }

  lemma ReinstatedRecord(b: Native, files: Files, prior: Record, residue: Residue, a: Native, env: Env)
    requires Kept(b, files, prior) && Recalled(a, b, prior, residue, env) && !residue.Unresolved?
    ensures RecordOk(b, Reinstated(prior, residue)) && Covers(b, Reinstated(prior, residue))
    ensures forall l :: l in files ==> l == prior.lease
  {
  }

  lemma RetainedIsReverted(a: Native, b: Native, files: Files, f: Files, r: Record, prior: Record, pending: Pending, env: Env, published: bool)
    requires Kept(b, files, prior) && Later(a, b) && Recalled(a, b, prior, Unresolved(pending), env)
    requires prior.lease in files && Restated(r, prior)
    requires Published(files, f, Retained(r, pending, prior))
    requires published ==> f == files[prior.lease := Retained(r, pending, prior)]
    ensures var c := Retained(r, pending, prior);
            var s := if published then Compensating(pending, prior) else Repair(Compensating(pending, prior));
            && LiveOk(b, f, c, s, true)
            && Reverted(a, b, c, s, prior, env)
  {
  }

  /** Publishes the outcome of one resource of an update that failed. */
  method RevertOne(env: Env, live: LiveRecord, prior: Record, residue: Residue, ghost a: Native) returns (r: Cleanup)
    requires Returned(a, live, prior, residue, env)
    modifies live`record, live`state, live.res`files
    ensures DurableOk(live.res.native, live.res.files)
    ensures r.Clean? ==> live.Valid() && Reverted(a, live.res.native, live.record, live.state, prior, env)
    ensures r.Cut? ==> env.crashes
  {
    hide DurableOk, LiveOk, Reverted, Later, Foreign, Covers, TracksCore, WfNative, PendingOk;
    ghost var n, files := live.res.native, live.res.files;
    var published;
    if residue.Unresolved? {
      ghost var record := live.record;
      RetainStarts(n, files, record, prior, residue.pending, a, env);
      published := RetainCompensation(env, live, residue.pending, prior);
      RetainedIsReverted(a, n, files, live.res.files, record, prior, residue.pending, env, published.Done?);
    } else {
      ReinstatedRecord(n, files, prior, residue, a, env);
      published := PersistLive(env, live, Reinstated(prior, residue));
      ReinstatedOk(a, n, files, live.res.files, prior, residue, env, published.Done?);
    }
    r := match published
      case Done(_) => Clean(if residue.Unresolved? then [IndeterminateMutation] else [])
      case Fail(error) => Clean(if residue.Unresolved? then [error, IndeterminateMutation] else [error])
      case Died => Cut;
  }

  lemma RetainStarts(n: Native, files: Files, r: Record, prior: Record, pending: Pending, a: Native, env: Env)
    requires Kept(n, files, prior) && Recalled(a, n, prior, Unresolved(pending), env)
    requires Restated(r, prior)
    ensures RecordOk(n, r) && Covers(n, r) && PendingOk(n, pending, r.before.state)
    ensures forall l :: l in files ==> l == r.lease
  {
  }

  // ----- one resource at a time

  /** A live record that is committed as `prior`, over the resource state `a`. */
  ghost predicate Steady(a: Native, live: LiveRecord, prior: Record)
    reads live, live.res
  {
    live.Valid() && live.registered && live.res.native == a && live.state == Committed && live.record == prior
  }

  /** A resource that the update has not mutated. */
  ghost predicate Waiting(a: Native, live: LiveRecord, prior: Record)
    reads live, live.res
  {
    live.res.native == a && Parked(a, live.res.files, prior) && live.registered && Restated(live.record, prior)
  }

  /** A resource whose intent is published. */
  ghost predicate Ready(a: Native, live: LiveRecord, prior: Record, plan: Plan)
    reads live, live.res
  {
    && Waiting(a, live, prior)
    && live.record == Planned(prior, plan)
    && live.res.files == map[prior.lease := Planned(prior, plan)]
  }

  /** A resource whose new overlay was verified. */
  ghost predicate Moved(a: Native, live: LiveRecord, prior: Record, plan: Plan, m: VerifiedMutation)
    reads live, live.res
  {
    && live.registered
    && live.record == Planned(prior, plan)
    && live.res.files == map[prior.lease := Planned(prior, plan)]
    && Kept(live.res.native, live.res.files, prior)
    && LiveOk(live.res.native, live.res.files, live.record, LiveState.Verified(m), true)
    && IssuedByEngine(live.res.native, m.observed)
    && Later(a, live.res.native)
    && (live.res.native.foreign == a.foreign ==> Owns(live.res.native, m.observed) && StatusOf(live.res.native, prior.identity) == Same)
  }

  /** A resource for which it is known what the failed update left on it. */
  ghost predicate Returned(a: Native, live: LiveRecord, prior: Record, residue: Residue, env: Env)
    reads live, live.res
  {
    && live.registered
    && Restated(live.record, prior)
    && Kept(live.res.native, live.res.files, prior)
    && Later(a, live.res.native)
    && Recalled(a, live.res.native, prior, residue, env)
    && (StatusOf(live.res.native, prior.identity) == Same ==> prior.lease in live.res.files)
    && (residue.Unchanged? ==> prior.lease !in live.res.files ==> Settled(live.res.native, prior.before.state))
    && (!residue.Unchanged? ==> prior.lease in live.res.files)
  }

  lemma SteadyIsWaiting(a: Native, live: LiveRecord, prior: Record)
    requires Steady(a, live, prior)
    ensures Waiting(a, live, prior)
  {
  }

  lemma WaitingIsReturned(a: Native, live: LiveRecord, prior: Record, env: Env)
    requires Waiting(a, live, prior)
    ensures Returned(a, live, prior, Unchanged, env)
  {
    Stutter(a);
  }

  /** Publishes the intent for one resource. */
  method IntendOne(env: Env, live: LiveRecord, plan: Plan, ghost prior: Record, ghost a: Native) returns (r: Outcome<()>)
    requires Steady(a, live, prior)
    modifies live`record, live`state, live.res`files
    ensures Waiting(a, live, prior) && DurableOk(live.res.native, live.res.files)
    ensures r.Done? ==> Ready(a, live, prior, plan)
    ensures r.Fail? ==> env.failures
    ensures r.Died? ==> env.crashes
  {
    ghost var n, files := live.res.native, live.res.files;
    live.record := live.record.(desired := plan, phase := Phase.Prepared);
    live.state := Unmutated;
    IntendKeeps(n, files, prior, plan);
    r := live.res.JournalWrite(env, live.record);
  }

  lemma IntendKeeps(n: Native, files: Files, prior: Record, plan: Plan)
    requires DurableOk(n, files) && LiveOk(n, files, prior, Committed, true)
    ensures Parked(n, files, prior)
    ensures Parked(n, files[prior.lease := Planned(prior, plan)], prior)
    ensures files[prior.lease := Planned(prior, plan)] == map[prior.lease := Planned(prior, plan)]
  {
    DurableUnderPublish(n, files, Planned(prior, plan));
  }

  /** Moves one resource to the plan. */
  method MoveOne(env: Env, live: LiveRecord, plan: Plan, ghost prior: Record, ghost a: Native) returns (r: Mutation)
    requires Ready(a, live, prior, plan)
    modifies live`state, live.res`native
    ensures DurableOk(live.res.native, live.res.files)
    ensures r.Verified? ==> Moved(a, live, prior, plan, r.mutation)
    ensures r.Failed? ==> Returned(a, live, prior, r.residue, env)
    ensures r.Lost? ==> env.crashes
    ensures Quiet(env, a, live.res.native) && AsApplied(a, prior) ==> !r.Failed?
    ensures !env.externals ==> live.res.native.foreign == a.foreign
  {
    hide DurableOk, LiveOk, Later, WfNative, ResidueOk, VerifiedOk, Recalled, Covers, Foreign;
    ghost var files := live.res.files;
    ReadyParts(a, files, prior, plan);
    live.state := LiveState.Prepared;
    r := MutateAndVerify(env, live.res, live.record.identity, live.record.applied.value, plan, live.record.lease, live.record.before.state);
    KeptLater(a, live.res.native, files, prior);
    if r.Verified? {
      MovedFrom(a, live.res.native, files, prior, plan, r.mutation, env);
    } else if r.Failed? {
      FailedIsRecalled(a, live.res.native, files, prior, r.residue, env);
    }
  }

  lemma ReadyParts(a: Native, files: Files, prior: Record, plan: Plan)
    requires Parked(a, files, prior) && files == map[prior.lease := Planned(prior, plan)]
    ensures DurableOk(a, files) && prior.applied.Some? && Evidence(a, prior.applied.value, prior.before.state)
    ensures HasFile(files, prior.lease, prior.before.state, prior.identity)
  {
  }

  lemma KeptLater(a: Native, b: Native, files: Files, prior: Record)
    requires Kept(a, files, prior) && Later(a, b) && DurableOk(b, files) && prior.lease in files
    ensures Kept(b, files, prior)
  {
    RecordStays(a, b, prior);
  }

  lemma MovedFrom(a: Native, b: Native, files: Files, prior: Record, plan: Plan, m: VerifiedMutation, env: Env)
    requires Kept(b, files, prior) && Later(a, b) && files == map[prior.lease := Planned(prior, plan)]
    requires VerifiedOk(a, b, files, prior.applied.value, plan, prior.before.state, m, env)
    ensures LiveOk(b, files, Planned(prior, plan), LiveState.Verified(m), true)
    ensures IssuedByEngine(b, m.observed)
    ensures b.foreign == a.foreign ==> Owns(b, m.observed) && StatusOf(b, prior.identity) == Same
  {
    ExternalIsBase(b);
    assert prior.lease in files;
  }

  lemma FailedIsRecalled(a: Native, b: Native, files: Files, prior: Record, residue: Residue, env: Env)
    requires Parked(a, files, prior) && prior.lease in files
    requires Kept(b, files, prior) && Later(a, b)
    requires ResidueOk(a, b, files, prior.identity, None, prior.applied.value, prior.before.state, residue, env)
    requires !(Quiet(env, a, b) && AsApplied(a, prior))
    ensures Recalled(a, b, prior, residue, env)
  {
    if residue.Unchanged? {
      LiveCoreUnderForeign(a, b, prior);
    }
  }

  lemma LiveCoreUnderForeign(a: Native, b: Native, prior: Record)
    requires WfNative(a) && Foreign(a, b) && TracksCore(a, prior, Committed)
    ensures TracksCore(b, prior, Committed)
  {
    ForeignClears(a, b);
  }

  /** Takes one moved resource back to its previous overlay. */
  method ReturnOne(env: Env, live: LiveRecord, plan: Plan, mutation: VerifiedMutation, prior: Record, ghost a: Native)
    returns (r: Outcome<Residue>)
    requires Moved(a, live, prior, plan, mutation)
    modifies live.res`native
    ensures DurableOk(live.res.native, live.res.files)
    ensures !r.Fail?
    ensures r.Done? ==> Returned(a, live, prior, r.value, env)
    ensures r.Died? ==> env.crashes
  {
    hide DurableOk, LiveOk, Later, WfNative, ResidueOk, Recalled, Covers, Foreign, PendingOk, MayUndo;
    ghost var b, files := live.res.native, live.res.files;
    MovedParts(b, files, prior, plan, mutation);
    r := RollbackProven(env, live.res, live.record.identity, Some(mutation.Persist()), prior.applied.value, live.record.lease, live.record.before.state);
    ghost var c := live.res.native;
    LaterTransitive(a, b, c);
    KeptLater(b, c, files, prior);
    if r.Done? {
      ReturnedFrom(a, b, c, files, prior, mutation, r.value, env);
    }
  }

  lemma MovedParts(n: Native, files: Files, prior: Record, plan: Plan, m: VerifiedMutation)
    requires Kept(n, files, prior) && files == map[prior.lease := Planned(prior, plan)]
    requires LiveOk(n, files, Planned(prior, plan), LiveState.Verified(m), true) && IssuedByEngine(n, m.observed)
    ensures m.Persist() == m.observed
    ensures PendingOk(n, Pending(Some(m.Persist()), prior.applied.value), prior.before.state)
    ensures MayUndo(n, files, Pending(Some(m.Persist()), prior.applied.value), prior.lease, prior.before.state, prior.identity)
  {
  }

  lemma ReturnedFrom(a: Native, b: Native, c: Native, files: Files, prior: Record, m: VerifiedMutation, residue: Residue, env: Env)
    requires Later(a, b) && Later(b, c) && prior.applied.Some?
    requires b.foreign == a.foreign ==> Owns(b, m.Persist()) && StatusOf(b, prior.identity) == Same
    requires !residue.Unchanged?
    requires ResidueOk(b, c, files, prior.identity, Some(m.Persist()), prior.applied.value, prior.before.state, residue, env)
    requires Quiet(env, b, c) && StatusOf(b, prior.identity) == Same && OwnsIfAny(b, Some(m.Persist())) ==>
               residue.Restored? && residue.identity.Some?
    ensures Recalled(a, c, prior, residue, env)
  {
  }

  // ----- the transaction over all resources

  ghost predicate Usable(live: LiveRecord)
    reads live, live.res
  {
    live.Valid() && live.registered
  }

  lemma UsableIsDurable(live: seq<LiveRecord>)
    ensures forall i :: 0 <= i < |live| && Usable(live[i]) ==> DurableOk(live[i].res.native, live[i].res.files)
  {
    hide DurableOk, LiveOk;
  }

  /** A live record and its resource at one moment. */
  datatype View = View(native: Native, record: Record, state: LiveState)

  ghost function ViewOf(live: LiveRecord): View
    reads live, live.res
  {
    View(live.res.native, live.record, live.state)
  }

  ghost predicate AllViewed(live: seq<LiveRecord>, was: seq<View>)
    reads live, ResourcesOf(live)
  {
    |was| == |live| && forall i :: 0 <= i < |live| ==> was[i] == ViewOf(live[i])
  }

  /** Resolving keeps the claim, and touches no settled resource. */
  predicate ResolvedFrom(was: View, now: View) {
    SameClaim(now.record, was.record) && was.native.foreign <= now.native.foreign && (was.state == Committed ==> now == was)
  }

  /** Every open outcome is resolved, and every record carries an overlay. */
  method ResolveAll(env: Env, live: seq<LiveRecord>, ghost was: seq<View>) returns (r: Outcome<()>, priors: seq<Record>)
    requires Apart(live) && AllViewed(live, was)
    requires forall i :: 0 <= i < |live| ==> Usable(live[i])
    modifies live`record, live`state, ResourcesOf(live)`native, ResourcesOf(live)`files
    ensures forall i :: 0 <= i < |live| ==> DurableOk(live[i].res.native, live[i].res.files)
    ensures !r.Died? ==> forall i :: 0 <= i < |live| ==> Usable(live[i]) && ResolvedFrom(was[i], ViewOf(live[i]))
    ensures r.Done? ==> |priors| == |live| && forall i :: 0 <= i < |live| ==> Steady(live[i].res.native, live[i], priors[i])
    ensures (forall i :: 0 <= i < |live| ==> was[i].state == Committed) ==> r.Done?
    ensures r.Died? ==> env.crashes
  {
    hide DurableOk, Usable, Steady, ResolvedFrom, ViewOf, Apart;
    priors := [];
    for k := 0 to |live|
      invariant |priors| == k
      invariant forall i :: 0 <= i < |live| ==> Usable(live[i])
      invariant forall i :: 0 <= i < k ==> ResolvedFrom(was[i], ViewOf(live[i]))
      invariant forall i :: 0 <= i < k ==> Steady(live[i].res.native, live[i], priors[i])
      invariant forall i :: k <= i < |live| ==> ViewOf(live[i]) == was[i]
    {
      OthersApart(live, k);
      r := ResolveOne(env, live[k]);
      if !r.Done? {
        UsableIsDurable(live);
        ResolvedAtOnce(was);
        return;
      }
      priors := priors + [live[k].record];
    }
    UsableIsDurable(live);
    r := Done(());
  }

  lemma ResolvedAtOnce(was: seq<View>)
    ensures forall i :: 0 <= i < |was| ==> ResolvedFrom(was[i], was[i])
  {
  }

  method ResolveOne(env: Env, live: LiveRecord) returns (r: Outcome<()>)
    requires Usable(live)
    modifies live`record, live`state, live.res`native, live.res`files
    ensures DurableOk(live.res.native, live.res.files)
    ensures !r.Died? ==> Usable(live) && ResolvedFrom(old(ViewOf(live)), ViewOf(live))
    ensures r.Done? ==> Steady(live.res.native, live, live.record)
    ensures old(ViewOf(live)).state == Committed ==> r.Done?
    ensures r.Died? ==> env.crashes
  {
    hide DurableOk, LiveOk, MayResolve;
    ghost var a, files, r0, s0 := live.res.native, live.res.files, live.record, live.state;
    ActiveMayResolve(a, files, r0, s0);
    LiveStates(a, files, r0, s0, true);
    r := ResolveLive(env, live, None);
    if r.Done? {
      var applied := live.Applied();
      if applied.None? {
        r := Fail(ExternalModification);
        LiveStates(live.res.native, live.res.files, live.record, live.state, true);
      }
    }
  }

  /** Every resource still shows the overlay of its record. */
  method CheckOwned(env: Env, live: seq<LiveRecord>, priors: seq<Record>, ghost was: seq<View>) returns (r: Outcome<()>)
    requires Apart(live) && |priors| == |live| == |was|
    requires forall i :: 0 <= i < |live| ==> Steady(live[i].res.native, live[i], priors[i]) && ResolvedFrom(was[i], ViewOf(live[i]))
    modifies ResourcesOf(live)`native
    ensures forall i :: 0 <= i < |live| ==> DurableOk(live[i].res.native, live[i].res.files)
    ensures forall i :: 0 <= i < |live| ==> Usable(live[i]) && Untaken(was[i], ViewOf(live[i]))
    ensures r.Done? ==> forall i :: 0 <= i < |live| ==> Steady(live[i].res.native, live[i], priors[i]) && StartedFrom(was[i], live[i].res.native, priors[i])
    ensures r.Died? ==> env.crashes
    ensures Calm(env) && (forall i :: 0 <= i < |live| ==> was[i].state == Committed && AsApplied(was[i].native, was[i].record)) ==>
              !r.Fail?
  {
    hide DurableOk, Usable, Steady, AsApplied, ResolvedFrom, StartedFrom, Untaken, Apart;
    AllSteady(live, priors, was);
    for k := 0 to |live|
      invariant forall i :: 0 <= i < |live| ==> DurableOk(live[i].res.native, live[i].res.files)
      invariant forall i :: 0 <= i < |live| ==> Usable(live[i])
      invariant forall i :: 0 <= i < |live| ==> Steady(live[i].res.native, live[i], priors[i])
      invariant forall i :: 0 <= i < |live| ==> Untaken(was[i], ViewOf(live[i]))
      invariant forall i :: 0 <= i < k ==> StartedFrom(was[i], live[i].res.native, priors[i])
      invariant forall i :: k <= i < |live| ==> ResolvedFrom(was[i], ViewOf(live[i]))
    {
      OthersApart(live, k);
      r := CheckOne(env, live[k], priors[k], was[k]);
      if !r.Done? {
        return;
      }
    }
    r := Done(());
  }

  lemma AllSteady(live: seq<LiveRecord>, priors: seq<Record>, was: seq<View>)
    requires |priors| == |live| == |was|
    requires forall i :: 0 <= i < |live| ==> Steady(live[i].res.native, live[i], priors[i]) && ResolvedFrom(was[i], ViewOf(live[i]))
    ensures forall i :: 0 <= i < |live| ==> DurableOk(live[i].res.native, live[i].res.files) && Usable(live[i]) && Untaken(was[i], ViewOf(live[i]))
  {
    hide DurableOk;
    forall i | 0 <= i < |live|
      ensures DurableOk(live[i].res.native, live[i].res.files) && Usable(live[i]) && Untaken(was[i], ViewOf(live[i]))
    {
      assert Steady(live[i].res.native, live[i], priors[i]);
      assert ResolvedFrom(was[i], ViewOf(live[i]));
    }
  }

  method CheckOne(env: Env, live: LiveRecord, prior: Record, ghost was: View) returns (r: Outcome<()>)
    requires Steady(live.res.native, live, prior) && ResolvedFrom(was, ViewOf(live))
    modifies live.res`native
    ensures DurableOk(live.res.native, live.res.files)
    ensures Usable(live) && Steady(live.res.native, live, prior)
    ensures Untaken(was, ViewOf(live))
    ensures r.Done? ==> StartedFrom(was, live.res.native, prior)
    ensures r.Died? ==> env.crashes
    ensures Calm(env) && was.state == Committed && AsApplied(was.native, was.record) ==> !r.Fail?
  {
    hide DurableOk, LiveOk, ForeignStrict, StartedFrom, Untaken;
    ghost var a, resolved := live.res.native, ViewOf(live);
    LiveStates(a, live.res.files, prior, live.state, true);
    var reading := live.res.Readback(env);
    ValidUnderForeign(a, live.res.native, live.res.files, prior, live.state, true);
    AdmittedFrom(was, resolved, live.res.files, ViewOf(live));
    var current :- reading;
    if current != prior.applied.value {
      return Fail(ExternalModification);
    }
    r := Done(());
  }

  lemma ReturnedIsDurable(live: seq<LiveRecord>, priors: seq<Record>, residues: seq<Residue>, starts: seq<Native>, env: Env)
    requires |priors| == |live| == |residues| == |starts|
    requires forall i :: 0 <= i < |live| ==> Returned(starts[i], live[i], priors[i], residues[i], env)
    ensures forall i :: 0 <= i < |live| ==> DurableOk(live[i].res.native, live[i].res.files)
  {
    hide DurableOk;
    forall i | 0 <= i < |live| ensures DurableOk(live[i].res.native, live[i].res.files) {
      assert Returned(starts[i], live[i], priors[i], residues[i], env);
    }
  }

  /** Puts every resource back under its old record. */
  method RevertAll(env: Env, live: seq<LiveRecord>, priors: seq<Record>, residues: seq<Residue>, ghost starts: seq<Native>) returns (r: Cleanup)
    requires Apart(live) && |priors| == |live| == |residues| == |starts|
    requires forall i :: 0 <= i < |live| ==> Returned(starts[i], live[i], priors[i], residues[i], env)
    modifies live`record, live`state, ResourcesOf(live)`files
    ensures forall i :: 0 <= i < |live| ==> DurableOk(live[i].res.native, live[i].res.files)
    ensures r.Clean? ==> forall i :: 0 <= i < |live| ==> live[i].Valid() && Reverted(starts[i], live[i].res.native, live[i].record, live[i].state, priors[i], env)
    ensures r.Cut? ==> env.crashes
  {
    hide DurableOk, LiveOk, Reverted, Returned;
    var errors: seq<Error> := [];
    ReturnedIsDurable(live, priors, residues, starts, env);
    for k := 0 to |live|
      invariant forall i :: 0 <= i < |live| ==> DurableOk(live[i].res.native, live[i].res.files)
      invariant forall i :: 0 <= i < k ==> live[i].Valid() && Reverted(starts[i], live[i].res.native, live[i].record, live[i].state, priors[i], env)
      invariant forall i :: k <= i < |live| ==> Returned(starts[i], live[i], priors[i], residues[i], env)
    {
      var reverted := RevertOne(env, live[k], priors[k], residues[k], starts[k]);
      if reverted.Cut? {
        return Cut;
      }
      errors := errors + reverted.errors;
    }
    r := Clean(errors);
  }

  /** Publishes what the update is going to write, for all records or for none. */
  method IntendAll(env: Env, live: seq<LiveRecord>, plan: Plan, priors: seq<Record>, ghost starts: seq<Native>) returns (r: Outcome<()>)
    requires Apart(live) && |priors| == |live| == |starts|
    requires forall i :: 0 <= i < |live| ==> Steady(starts[i], live[i], priors[i])
    modifies live`record, live`state, ResourcesOf(live)`files
    ensures forall i :: 0 <= i < |live| ==> DurableOk(live[i].res.native, live[i].res.files)
    ensures r.Done? ==> forall i :: 0 <= i < |live| ==> Ready(starts[i], live[i], priors[i], plan)
    ensures r.Fail? ==> env.failures && forall i :: 0 <= i < |live| ==> live[i].Valid() && Reverted(starts[i], live[i].res.native, live[i].record, live[i].state, priors[i], env)
    ensures r.Died? ==> env.crashes
  {
    hide DurableOk, LiveOk, Steady, Waiting, Ready, Reverted, Returned;
    SteadyIsDurable(live, priors, starts);
    for k := 0 to |live|
      invariant forall i :: 0 <= i < |live| ==> DurableOk(live[i].res.native, live[i].res.files)
      invariant forall i :: 0 <= i < k ==> Ready(starts[i], live[i], priors[i], plan)
      invariant forall i :: k <= i < |live| ==> Steady(starts[i], live[i], priors[i])
    {
      r := IntendOne(env, live[k], plan, priors[k], starts[k]);
      if r.Died? {
        return;
      }
      if r.Fail? {
        var residues := seq(|live|, _ => Unchanged);
        StoppedIsReturned(live, priors, plan, starts, k, env);
        var reverted := RevertAll(env, live, priors, residues, starts);
        r := if reverted.Cut? then Died else Fail(TransactionError(r.error, reverted.errors));
        return;
      }
    }
    r := Done(());
  }

  lemma SteadyIsDurable(live: seq<LiveRecord>, priors: seq<Record>, starts: seq<Native>)
    requires |priors| == |live| == |starts|
    requires forall i :: 0 <= i < |live| ==> Steady(starts[i], live[i], priors[i])
    ensures forall i :: 0 <= i < |live| ==> DurableOk(live[i].res.native, live[i].res.files)
  {
    hide DurableOk;
    forall i | 0 <= i < |live| ensures DurableOk(live[i].res.native, live[i].res.files) {
      assert Steady(starts[i], live[i], priors[i]);
    }
  }

  lemma StoppedIsReturned(live: seq<LiveRecord>, priors: seq<Record>, plan: Plan, starts: seq<Native>, k: nat, env: Env)
    requires |priors| == |live| == |starts| && k < |live|
    requires forall i :: 0 <= i < k ==> Ready(starts[i], live[i], priors[i], plan)
    requires Waiting(starts[k], live[k], priors[k])
    requires forall i :: k < i < |live| ==> Steady(starts[i], live[i], priors[i])
    ensures forall i :: 0 <= i < |live| ==> Returned(starts[i], live[i], priors[i], Unchanged, env)
  {
    hide Steady, Waiting, Returned;
    forall i | 0 <= i < |live| ensures Returned(starts[i], live[i], priors[i], Unchanged, env) {
      if i > k {
        SteadyIsWaiting(starts[i], live[i], priors[i]);
      } else if i < k {
        assert Ready(starts[i], live[i], priors[i], plan);
      }
      WaitingIsReturned(starts[i], live[i], priors[i], env);
    }
  }

  /** The resources of an update after a failed mutation. */
  ghost predicate HalfMoved(live: seq<LiveRecord>, priors: seq<Record>, plan: Plan, done: seq<VerifiedMutation>, residue: Residue, starts: seq<Native>, env: Env)
    requires |priors| == |live| == |starts| && |done| < |live|
    reads live, ResourcesOf(live)
  {
    && (forall i :: 0 <= i < |done| ==> Moved(starts[i], live[i], priors[i], plan, done[i]))
    && Returned(starts[|done|], live[|done|], priors[|done|], residue, env)
    && (forall i :: |done| < i < |live| ==> Ready(starts[i], live[i], priors[i], plan))
  }

  /** Mutates and verifies one resource after the other, up to a failure. */
  method MoveAll(env: Env, live: seq<LiveRecord>, plan: Plan, ghost priors: seq<Record>, ghost starts: seq<Native>)
    returns (done: seq<VerifiedMutation>, r: MutateOutcome)
    requires Apart(live) && |priors| == |live| == |starts|
    requires forall i :: 0 <= i < |live| ==> Ready(starts[i], live[i], priors[i], plan)
    modifies live`state, ResourcesOf(live)`native
    ensures forall i :: 0 <= i < |live| ==> DurableOk(live[i].res.native, live[i].res.files)
    ensures r.Stopped? ==> env.crashes
    ensures !r.Stopped? ==> |done| <= |live| && (r.AllVerified? <==> |done| == |live|)
    ensures r.AllVerified? ==> forall i :: 0 <= i < |live| ==> Moved(starts[i], live[i], priors[i], plan, done[i])
    ensures r.OneFailed? ==> HalfMoved(live, priors, plan, done, r.residue, starts, env)
    ensures Calm(env) && (forall i :: 0 <= i < |live| ==> AsApplied(starts[i], priors[i])) ==> !r.OneFailed?
    ensures Calm(env) && r.AllVerified? ==> forall i :: 0 <= i < |live| ==> live[i].res.native.foreign == starts[i].foreign
  {
    hide DurableOk, Ready, Moved, Returned, AsApplied, Apart;
    done := [];
    ReadyIsDurable(live, priors, plan, starts);
    for k := 0 to |live|
      invariant |done| == k
      invariant forall i :: 0 <= i < |live| ==> DurableOk(live[i].res.native, live[i].res.files)
      invariant forall i :: 0 <= i < k ==> Moved(starts[i], live[i], priors[i], plan, done[i])
      invariant forall i :: k <= i < |live| ==> Ready(starts[i], live[i], priors[i], plan)
      invariant Calm(env) ==> forall i :: 0 <= i < k ==> live[i].res.native.foreign == starts[i].foreign
    {
      OthersApart(live, k);
      var mutation := MoveOne(env, live[k], plan, priors[k], starts[k]);
      match mutation {
        case Lost => return done, Stopped;
        case Failed(error, residue) => return done, OneFailed(error, residue);
        case Verified(m) => done := done + [m];
      }
    }
    r := AllVerified;
  }

  lemma ReadyIsDurable(live: seq<LiveRecord>, priors: seq<Record>, plan: Plan, starts: seq<Native>)
    requires |priors| == |live| == |starts|
    requires forall i :: 0 <= i < |live| ==> Ready(starts[i], live[i], priors[i], plan)
    ensures forall i :: 0 <= i < |live| ==> DurableOk(live[i].res.native, live[i].res.files)
  {
    hide DurableOk;
    forall i | 0 <= i < |live| ensures DurableOk(live[i].res.native, live[i].res.files) {
      assert Ready(starts[i], live[i], priors[i], plan);
    }
  }

  /** Takes the moved resources back; the other residues are known already. */
  method ReturnAll(env: Env, live: seq<LiveRecord>, plan: Plan, priors: seq<Record>, done: seq<VerifiedMutation>, residue: Residue, ghost starts: seq<Native>)
    returns (r: Outcome<seq<Residue>>)
    requires Apart(live) && |priors| == |live| == |starts| && |done| < |live|
    requires HalfMoved(live, priors, plan, done, residue, starts, env)
    requires forall i :: 0 <= i < |live| ==> DurableOk(live[i].res.native, live[i].res.files)
    modifies ResourcesOf(live)`native
    ensures forall i :: 0 <= i < |live| ==> DurableOk(live[i].res.native, live[i].res.files)
    ensures !r.Fail? && (r.Died? ==> env.crashes)
    ensures r.Done? ==> |r.value| == |live| && forall i :: 0 <= i < |live| ==> Returned(starts[i], live[i], priors[i], r.value[i], env)
  {
    hide DurableOk, Ready, Moved, Returned, Apart;
    var residues: seq<Residue> := [];
    for k := 0 to |done|
      invariant |residues| == k
      invariant forall i :: 0 <= i < |live| ==> DurableOk(live[i].res.native, live[i].res.files)
      invariant forall i :: 0 <= i < k ==> Returned(starts[i], live[i], priors[i], residues[i], env)
      invariant forall i :: k <= i < |done| ==> Moved(starts[i], live[i], priors[i], plan, done[i])
      invariant Returned(starts[|done|], live[|done|], priors[|done|], residue, env)
      invariant forall i :: |done| < i < |live| ==> Ready(starts[i], live[i], priors[i], plan)
    {
      OthersApart(live, k);
      var returned := ReturnOne(env, live[k], plan, done[k], priors[k], starts[k]);
      if returned.Died? {
        return Died;
      }
      residues := residues + [returned.value];
    }
    residues := residues + [residue] + seq(|live| - |done| - 1, _ => Unchanged);
    forall i | |done| < i < |live| ensures Returned(starts[i], live[i], priors[i], residues[i], env) {
      ReadyIsReturned(starts[i], live[i], priors[i], plan, env);
    }
    r := Done(residues);
  }

  lemma ReadyIsReturned(a: Native, live: LiveRecord, prior: Record, plan: Plan, env: Env)
    requires Ready(a, live, prior, plan)
    ensures Returned(a, live, prior, Unchanged, env)
  {
    hide Waiting, Returned;
    WaitingIsReturned(a, live, prior, env);
  }

  /** How far an update got. */
  datatype Stage = Refused | Unneeded | TookBack | MovedOver

  /** Every resource carries the plan, or every resource was reverted. */
  ghost predicate AllOrNothing(live: seq<LiveRecord>, priors: seq<Record>, plan: Plan, starts: seq<Native>, env: Env, stage: Stage)
    requires |priors| == |live| == |starts|
    reads live, ResourcesOf(live)
  {
    match stage
    case MovedOver => forall i :: 0 <= i < |live| ==> Carried(starts[i], live[i], Planned(priors[i], plan))
    case TookBack => forall i :: 0 <= i < |live| ==> live[i].Valid() && Reverted(starts[i], live[i].res.native, live[i].record, live[i].state, priors[i], env)
    case _ => false
  }

  /** Moves every resource of a lease to the plan, or takes all of them back. */
  method MoveOver(env: Env, live: seq<LiveRecord>, plan: Plan, priors: seq<Record>, ghost starts: seq<Native>)
    returns (r: Outcome<()>, ghost stage: Stage)
    requires Apart(live) && |priors| == |live| == |starts|
    requires forall i :: 0 <= i < |live| ==> Steady(starts[i], live[i], priors[i])
    modifies live`record, live`state, ResourcesOf(live)`native, ResourcesOf(live)`files
    ensures forall i :: 0 <= i < |live| ==> DurableOk(live[i].res.native, live[i].res.files)
    ensures stage in {TookBack, MovedOver} && (!r.Died? ==> AllOrNothing(live, priors, plan, starts, env, stage))
    ensures r.Done? ==> stage == MovedOver && forall i :: 0 <= i < |live| ==> live[i].state == Committed
    ensures r.Died? ==> env.crashes
    ensures Calm(env) && (forall i :: 0 <= i < |live| ==> AsApplied(starts[i], priors[i])) ==> !r.Fail?
    ensures Calm(env) && r.Done? ==> QuietSince(live, starts)
  {
    hide DurableOk, Steady, Ready, Moved, Carried, Reverted, Returned, AsApplied, HalfMoved, LiveRecord.Valid;
    stage := TookBack;
    r := IntendAll(env, live, plan, priors, starts);
    if !r.Done? {
      return;
    }
    var done, moved := MoveAll(env, live, plan, priors, starts);
    match moved {
      case Stopped => r := Died;
      case OneFailed(error, residue) =>
        r := TakeBack(env, live, plan, priors, done, residue, error, starts);
      case AllVerified =>
        stage := MovedOver;
        r := PublishAll(env, live, plan, priors, done, starts);
    }
  }

  /** The rollback of an update whose mutation failed with `error`. */
  method TakeBack(env: Env, live: seq<LiveRecord>, plan: Plan, priors: seq<Record>, done: seq<VerifiedMutation>, residue: Residue, error: Error, ghost starts: seq<Native>)
    returns (r: Outcome<()>)
    requires Apart(live) && |priors| == |live| == |starts| && |done| < |live|
    requires HalfMoved(live, priors, plan, done, residue, starts, env)
    requires forall i :: 0 <= i < |live| ==> DurableOk(live[i].res.native, live[i].res.files)
    modifies live`record, live`state, ResourcesOf(live)`native, ResourcesOf(live)`files
    ensures forall i :: 0 <= i < |live| ==> DurableOk(live[i].res.native, live[i].res.files)
    ensures !r.Done? && (r.Died? ==> env.crashes)
    ensures r.Fail? ==> AllOrNothing(live, priors, plan, starts, env, TookBack)
  {
    hide DurableOk, HalfMoved, Reverted, Returned, LiveRecord.Valid;
    var returned := ReturnAll(env, live, plan, priors, done, residue, starts);
    if returned.Died? {
      return Died;
    }
    var reverted := RevertAll(env, live, priors, returned.value, starts);
    r := if reverted.Cut? then Died else Fail(TransactionError(error, reverted.errors));
  }

  /** The publication of an update whose mutations were all verified. */
  method PublishAll(env: Env, live: seq<LiveRecord>, plan: Plan, ghost priors: seq<Record>, done: seq<VerifiedMutation>, ghost starts: seq<Native>)
    returns (r: Outcome<()>)
    requires Apart(live) && |priors| == |live| == |starts| == |done|
    requires forall i :: 0 <= i < |live| ==> Moved(starts[i], live[i], priors[i], plan, done[i])
    modifies live`record, live`state, ResourcesOf(live)`native, ResourcesOf(live)`files
    ensures r.Died? ==> env.crashes
    ensures !r.Died? ==> AllOrNothing(live, priors, plan, starts, env, MovedOver)
    ensures forall i :: 0 <= i < |live| ==> DurableOk(live[i].res.native, live[i].res.files)
    ensures r.Done? ==> forall i :: 0 <= i < |live| ==> live[i].state == Committed
    ensures Calm(env) && old(QuietSince(live, starts)) ==> !r.Fail? && QuietSince(live, starts)
  {
    hide DurableOk, Mutated, Carried, LiveRecord.Valid;
    ghost var records := seq(|live|, i requires 0 <= i < |live| => Planned(priors[i], plan));
    MovedIsMutated(live, priors, plan, done, records, starts);
    var published, failure := CommitAll(env, live, done, records, starts);
    if published.Died? {
      return Died;
    }
    CarriedIsDurable(live, records, starts);
    r := if failure.Some? then Fail(failure.value) else Done(());
  }

  lemma MovedIsMutated(live: seq<LiveRecord>, priors: seq<Record>, plan: Plan, done: seq<VerifiedMutation>, records: seq<Record>, starts: seq<Native>)
    requires |priors| == |live| == |starts| == |done| == |records|
    requires forall i :: 0 <= i < |live| ==> records[i] == Planned(priors[i], plan)
    requires forall i :: 0 <= i < |live| ==> Moved(starts[i], live[i], priors[i], plan, done[i])
    ensures forall i :: 0 <= i < |live| ==> live[i].registered && live[i].record == records[i] && Mutated(starts[i], live[i].res, records[i], done[i])
  {
    hide DurableOk, LiveOk, Later;
    forall i | 0 <= i < |live| ensures live[i].registered && live[i].record == records[i] && Mutated(starts[i], live[i].res, records[i], done[i]) {
      assert Moved(starts[i], live[i], priors[i], plan, done[i]);
    }
  }

  lemma CarriedIsDurable(live: seq<LiveRecord>, records: seq<Record>, starts: seq<Native>)
    requires |live| == |starts| == |records|
    requires forall i :: 0 <= i < |live| ==> Carried(starts[i], live[i], records[i])
    ensures forall i :: 0 <= i < |live| ==> DurableOk(live[i].res.native, live[i].res.files)
  {
    hide DurableOk;
    forall i | 0 <= i < |live| ensures DurableOk(live[i].res.native, live[i].res.files) {
      assert Carried(starts[i], live[i], records[i]);
    }
  }

  /** The resource and record that the mutating part of an update starts from. */
  predicate StartedFrom(was: View, start: Native, prior: Record) {
    && SameClaim(prior, was.record)
    && IsApplied(prior)
    && OwnsIfAny(start, prior.applied)
    && was.native.foreign <= start.foreign
    && (was.state == Committed ==> start == was.native && prior == was.record)
  }

  /** An update that was refused touched no settled resource. */
  predicate Untaken(was: View, now: View) {
    && SameClaim(now.record, was.record)
    && (was.state == Committed ==> Foreign(was.native, now.native) && now.record == was.record && now.state == was.state)
  }

  lemma ResolvedIsUntaken(was: seq<View>)
    ensures forall now: View, i :: 0 <= i < |was| && ResolvedFrom(was[i], now) ==> Untaken(was[i], now)
  {
  }

  lemma AdmittedFrom(was: View, resolved: View, files: Files, now: View)
    requires ResolvedFrom(was, resolved) && resolved.state == Committed
    requires Foreign(resolved.native, now.native) && now.record == resolved.record && now.state == Committed
    requires LiveOk(resolved.native, files, resolved.record, Committed, true)
    ensures OwnsIfAny(now.native, now.record.applied) ==> StartedFrom(was, now.native, now.record)
    ensures Untaken(was, now)
  {
    if OwnsIfAny(now.native, now.record.applied) {
      StillOwned(resolved.native, now.native, now.record.applied.value);
    }
  }

  /** Resolves every open outcome and checks that the lease owns every overlay. */
  method Admit(env: Env, live: seq<LiveRecord>, ghost was: seq<View>)
    returns (r: Outcome<()>, priors: seq<Record>, ghost starts: seq<Native>)
    requires Apart(live) && AllViewed(live, was)
    requires forall i :: 0 <= i < |live| ==> Usable(live[i])
    modifies live`record, live`state, ResourcesOf(live)`native, ResourcesOf(live)`files
    ensures forall i :: 0 <= i < |live| ==> DurableOk(live[i].res.native, live[i].res.files)
    ensures r.Fail? ==> forall i :: 0 <= i < |live| ==> Usable(live[i]) && Untaken(was[i], ViewOf(live[i]))
    ensures r.Done? ==> |priors| == |live| == |starts| && forall i :: 0 <= i < |live| ==>
              Steady(starts[i], live[i], priors[i]) && StartedFrom(was[i], starts[i], priors[i])
    ensures r.Died? ==> env.crashes
    ensures Calm(env) && (forall i :: 0 <= i < |live| ==> was[i].state == Committed && AsApplied(was[i].native, was[i].record)) ==>
              !r.Fail?
  {
    hide DurableOk, Usable, Steady, AsApplied, ResolvedFrom, Foreign, StartedFrom, Untaken, ViewOf;
    starts := [];
    r, priors := ResolveAll(env, live, was);
    if !r.Done? {
      ResolvedIsUntaken(was);
      return;
    }
    r := CheckOwned(env, live, priors, was);
    starts := Natives(ResourcesOf(live));
  }

  /** The records of the lease agree on one intent: the plan, or whatever each
      of them had before. */
  ghost predicate OneIntent(live: seq<LiveRecord>, was: seq<View>, plan: Plan, stage: Stage)
    requires |was| == |live|
    reads live
  {
    forall i :: 0 <= i < |live| ==> live[i].record.desired == if stage == MovedOver then plan else was[i].record.desired
  }

  lemma AllOrNothingIsOneIntent(live: seq<LiveRecord>, was: seq<View>, priors: seq<Record>, plan: Plan, starts: seq<Native>, env: Env, stage: Stage)
    requires |priors| == |live| == |starts| == |was|
    requires AllOrNothing(live, priors, plan, starts, env, stage)
    requires forall i :: 0 <= i < |live| ==> StartedFrom(was[i], starts[i], priors[i])
    requires forall i :: 0 <= i < |live| ==> live[i].registered
    ensures OneIntent(live, was, plan, stage)
    ensures forall i :: 0 <= i < |live| ==> Usable(live[i])
  {
    hide LiveRecord.Valid, Later, DurableOk;
    forall i | 0 <= i < |live|
      ensures Usable(live[i]) && live[i].record.desired == if stage == MovedOver then plan else was[i].record.desired
    {
      assert StartedFrom(was[i], starts[i], priors[i]);
      if stage == MovedOver {
        assert Carried(starts[i], live[i], Planned(priors[i], plan));
      }
    }
  }

  lemma RefusedIsOneIntent(live: seq<LiveRecord>, was: seq<View>, plan: Plan)
    requires |was| == |live|
    requires forall i :: 0 <= i < |live| ==> Untaken(was[i], ViewOf(live[i]))
    ensures OneIntent(live, was, plan, Refused)
  {
    forall i | 0 <= i < |live| ensures live[i].record.desired == was[i].record.desired {
      assert Untaken(was[i], ViewOf(live[i]));
    }
  }

  /** Every overlay satisfies the plan. */
  predicate AlreadyShown(priors: seq<Record>, plan: Plan) {
    forall i :: 0 <= i < |priors| ==> priors[i].applied.Some? && StateMatches(priors[i].applied.value.state, plan)
  }

  ghost predicate AllDesire(live: seq<LiveRecord>, plan: Plan)
    reads live
  {
    forall i :: 0 <= i < |live| ==> live[i].record.desired == plan
  }

  predicate AllDesired(was: seq<View>, plan: Plan) {
    forall i :: 0 <= i < |was| ==> was[i].record.desired == plan
  }

  lemma DesiresFollow(live: seq<LiveRecord>, was: seq<View>, plan: Plan, stage: Stage)
    requires |was| == |live| && OneIntent(live, was, plan, stage)
    ensures AllDesire(live, plan) <==> stage == MovedOver || AllDesired(was, plan)
  {
  }

  /** One update transaction. Whatever happens short of process death, the
      records agree on one intent: the plan, or the one they had before. */
  method TransactUpdate(env: Env, live: seq<LiveRecord>, plan: Plan, ghost was: seq<View>)
    returns (r: Outcome<()>, ghost stage: Stage, ghost priors: seq<Record>, ghost starts: seq<Native>)
    requires Apart(live) && AllViewed(live, was)
    requires forall i :: 0 <= i < |live| ==> Usable(live[i])
    modifies live`record, live`state, ResourcesOf(live)`native, ResourcesOf(live)`files
    ensures forall i :: 0 <= i < |live| ==> DurableOk(live[i].res.native, live[i].res.files)
    ensures !r.Died? ==> OneIntent(live, was, plan, stage) && forall i :: 0 <= i < |live| ==> Usable(live[i])
    ensures r.Done? ==> stage in {Unneeded, MovedOver} && forall i :: 0 <= i < |live| ==> live[i].state == Committed
    ensures stage == Refused && !r.Died? ==> r.Fail? && forall i :: 0 <= i < |live| ==> Untaken(was[i], ViewOf(live[i]))
    ensures stage != Refused ==> |priors| == |live| == |starts| && forall i :: 0 <= i < |live| ==> StartedFrom(was[i], starts[i], priors[i])
    ensures stage == Unneeded ==> r.Done? && forall i :: 0 <= i < |live| ==>
              Steady(starts[i], live[i], priors[i]) && priors[i].applied.Some? && StateMatches(priors[i].applied.value.state, plan)
    ensures stage in {TookBack, MovedOver} && !r.Died? ==> AllOrNothing(live, priors, plan, starts, env, stage)
    // success stores the plan exactly when some overlay did not satisfy it yet
    ensures stage != Refused ==> (stage == Unneeded <==> AlreadyShown(priors, plan))
    ensures r.Done? ==> (AllDesire(live, plan) <==> !AlreadyShown(priors, plan) || AllDesired(was, plan))
    ensures r.Died? ==> env.crashes
    ensures Calm(env) && (forall i :: 0 <= i < |live| ==> was[i].state == Committed && AsApplied(was[i].native, was[i].record)) ==>
              !r.Fail?
    ensures Calm(env) && r.Done? && stage == MovedOver ==> QuietSince(live, starts)
  {
    hide DurableOk, Usable, Steady, AsApplied, AllOrNothing, Foreign, StartedFrom, Untaken, ViewOf, OneIntent, QuietSince, Apart, AllDesire, AllDesired;
    stage := Refused;
    var records;
    r, records, starts := Admit(env, live, was);
    priors := records;
    if !r.Done? {
      if r.Fail? {
        RefusedIsOneIntent(live, was, plan);
      }
      return;
    }
    StartsAreSteady(live, records, starts, was);
    OverlaysMatch(records, plan);
    if AllMatch(OverlaysOf(records), plan) {
      stage := Unneeded;
      SteadyIsOneIntent(live, records, starts, was, plan);
      DesiresFollow(live, was, plan, stage);
      return;
    }
    r, stage := MoveOver(env, live, plan, records, starts);
    if !r.Died? {
      AllOrNothingIsOneIntent(live, was, records, plan, starts, env, stage);
      DesiresFollow(live, was, plan, stage);
    }
  }

  lemma StartsAreSteady(live: seq<LiveRecord>, priors: seq<Record>, starts: seq<Native>, was: seq<View>)
    requires |priors| == |live| == |starts| == |was|
    requires forall i :: 0 <= i < |live| ==> Steady(starts[i], live[i], priors[i]) && StartedFrom(was[i], starts[i], priors[i])
    ensures forall i :: 0 <= i < |live| ==> Usable(live[i]) && live[i].registered && priors[i].applied.Some? && live[i].state == Committed
    ensures (forall i :: 0 <= i < |live| ==> was[i].state == Committed && AsApplied(was[i].native, was[i].record)) ==>
              forall i :: 0 <= i < |live| ==> AsApplied(starts[i], priors[i])
  {
    hide DurableOk;
    forall i | 0 <= i < |live|
      ensures Usable(live[i]) && live[i].registered && priors[i].applied.Some? && live[i].state == Committed
      ensures was[i].state == Committed && AsApplied(was[i].native, was[i].record) ==> AsApplied(starts[i], priors[i])
    {
      assert Steady(starts[i], live[i], priors[i]);
      assert StartedFrom(was[i], starts[i], priors[i]);
    }
  }

  lemma SteadyIsOneIntent(live: seq<LiveRecord>, priors: seq<Record>, starts: seq<Native>, was: seq<View>, plan: Plan)
    requires |priors| == |live| == |starts| == |was|
    requires forall i :: 0 <= i < |live| ==> Steady(starts[i], live[i], priors[i]) && StartedFrom(was[i], starts[i], priors[i])
    ensures OneIntent(live, was, plan, Unneeded)
  {
    forall i | 0 <= i < |live| ensures live[i].record.desired == was[i].record.desired {
      assert Steady(starts[i], live[i], priors[i]);
      assert StartedFrom(was[i], starts[i], priors[i]);
    }
  }

  lemma OverlaysMatch(priors: seq<Record>, plan: Plan)
    requires forall i :: 0 <= i < |priors| ==> priors[i].applied.Some?
    ensures AllMatch(OverlaysOf(priors), plan) <==> AlreadyShown(priors, plan)
  {
    if AllMatch(OverlaysOf(priors), plan) {
      forall i | 0 <= i < |priors| ensures StateMatches(priors[i].applied.value.state, plan) {
        assert OverlaysOf(priors)[i] == priors[i].applied.value;
      }
    }
  }

  function OverlaysOf(priors: seq<Record>): (r: seq<Snapshot>)
    requires forall i :: 0 <= i < |priors| ==> priors[i].applied.Some?
    ensures |r| == |priors| && forall i :: 0 <= i < |priors| ==> r[i] == priors[i].applied.value
  {
    seq(|priors|, i requires 0 <= i < |priors| => priors[i].applied.value)
  }
}
