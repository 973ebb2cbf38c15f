/** Runs in which recovery works on a copy that is no longer current. */
module Race {
  import opened Dns
  import opened World
  import opened Durable
  import opened Backend
  import opened Live
  import opened Recovery
  import opened Updating
  import opened Leases
  import opened Hosts
  import opened RoundTrip
  import opened Applying
  import Journal

  /** The journal file of a committed overlay writes for as long as nobody else
      does, whatever became of the file. */
  lemma HeldIsTakenBack(live: LiveRecord, original: DnsState, plan: Plan)
    requires Held(live, original, plan) && !StateMatches(original, plan)
    ensures live.Valid()
    ensures live.record.lease in live.res.files && live.res.files[live.record.lease] == live.record
    ensures forall l :: l in live.res.files ==> l == live.record.lease
    ensures live.record.before.state == original && StateMatches(Last(live.res.native).state, plan)
    ensures var n := live.res.native.(disclaimed := true);
            && !StillCurrent(n, map[], live.record)
            && Assess(n, live.record) == Ours
  {
    hide DurableOk;
    var n := live.res.native.(disclaimed := true);
    assert Writes(n, live.record);
  }

  /** One process applies a plan; another one lists the journal; the first one
      abandons its lease, which removes the record and leaves the overlay to
      whoever comes next. */
  method AbandonAfterListing(res: Resource, owner: string, lease: nat, plan: Plan) returns (copy: Record)
    requires DurableOk(res.native, map[]) && res.files == map[] && !res.locked
    requires res.native.present && !StateMatches(Last(res.native).state, plan)
    modifies res
    ensures DurableOk(res.native, map[]) && res.files == map[] && !res.locked
    ensures res.native.present && res.native.disclaimed && StateMatches(Last(res.native).state, plan)
    ensures copy.lease == lease && copy.owner == owner && copy.before.state == Last(old(res.native)).state
    ensures Assess(res.native, copy) == Ours
  {
    hide DurableOk, Held, Granted, StateMatches, Assess, LiveOk;
    ghost var original := Last(res.native).state;
    res.locked := true;
    var applied := ApplyLocked(Peace, owner, lease, [res], plan);
    GrantedOne(applied.value.live, res, owner, lease, plan);
    var live := applied.value.live[0];
    assert live.res == [res][0];
    HeldIsTakenBack(live, original, plan);
    var listed := ListRecord(Peace, res);
    copy := listed.value.value;
    ghost var was := ViewOf(live);
    var ended := AbandonOne(Peace, live, was);
  }

  /** The listing process takes the free lock and recovers from its copy. It
      overwrites a resource that no record names any more. */
  method OverwrittenAfterAbandon(res: Resource, owner: string, lease: nat, plan: Plan) returns (copy: Record, ghost abandoned: Native)
    requires DurableOk(res.native, map[]) && res.files == map[] && !res.locked
    requires res.native.present && !StateMatches(Last(res.native).state, plan)
    modifies res
    // abandoning left the overlay in place and no record
    ensures abandoned.disclaimed && StateMatches(Last(abandoned).state, plan)
    ensures !StillCurrent(abandoned, map[], copy)
    // recovery wrote nevertheless, with no record to undo it
    ensures res.native == EngineWrite(abandoned, Last(old(res.native)).state, map[]) && res.files == map[]
  {
    hide DurableOk, StateMatches, MayRecover, Attempted, FromPublished, Truthful, RefusedRecovery;
    copy := AbandonAfterListing(res, owner, lease, plan);
    abandoned := res.native;
    var recovered := RecoverListed(Peace, res, copy, owner);
  }

  /** A process captures a free resource, publishes what it is going to do, and
      dies. */
  method DieAfterIntent(res: Resource, owner: string, lease: nat, plan: Plan) returns (intent: Record)
    requires DurableOk(res.native, map[]) && res.files == map[] && !res.locked && res.native.present
    modifies res
    ensures res.files == map[lease := intent] && !res.locked && DurableOk(res.native, res.files)
    ensures intent.owner == owner && intent.lease == lease && intent.desired == plan && intent.before == Current(res.native)
    ensures res.native.log == old(res.native).log && res.native.present
  {
    hide DurableOk, Captured, Intended, Untouched, StateMatches;
    res.locked := true;
    var captured := ObserveOne(Peace, res, owner, lease, plan);
    var (identity, before) := captured.value;
    var noop := AllMatch([before], plan);
    intent := InitialRecord(owner, lease, plan, before, identity, noop);
    StartsUntouched([res], [intent], owner, lease, plan, [before], [identity], noop);
    var published := PersistUnmutated(Peace, [res], [intent]);
    IntendedParts(res.native, [res][0], [intent][0]);
    res.locked := false;
  }

  lemma IntendedParts(n: Native, res: Resource, r: Record)
    requires Intended(n, res, r)
    ensures DurableOk(res.native, res.files) && res.files == map[r.lease := r]
  {
  }

  /** Between abandon and recovery another process captures the resource,
      publishes its intent and dies; and the backend refuses to write when recovery
      tries. The copy is then published beside the record of the second lease: two
      records claim the resource, and no process can read the journal. */
  method TwoRecordsAfterAbandon(res: Resource, owner: string, lease: nat, plan: Plan, other: string, second: nat, next: Plan)
    returns (copy: Record, intent: Record)
    requires DurableOk(res.native, map[]) && res.files == map[] && !res.locked && second != lease
    requires res.native.present && !StateMatches(Last(res.native).state, plan)
    modifies res
    ensures copy.lease == lease && copy.owner == owner && intent.lease == second && intent.owner == other
    // before recovery there was one record, and the condition for keeping it so failed
    ensures !StaysUnique(res.native, map[second := intent], copy)
    ensures res.files == map[second := intent, lease := Retained(copy, copy.applied)] && !Unique(res.files)
    ensures var directory := [Journal.Entry(0, intent), Journal.Entry(0, Retained(copy, copy.applied))];
            Journal.Lists(directory, [res.files]) && !Journal.Readable(directory)
  {
    hide DurableOk, StateMatches, MayRecover, Attempted, FromPublished, Truthful, PeacefulRecovery;
    copy := AbandonAfterListing(res, owner, lease, plan);
    intent := DieAfterIntent(res, other, second, next);
    var recovered := RecoverListed(Env(false, false, false, false, true), res, copy, owner);
    assert second in res.files && lease in res.files;
    ghost var directory := [Journal.Entry(0, intent), Journal.Entry(0, Retained(copy, copy.applied))];
    assert directory[0] != directory[1] && directory[0].resource == directory[1].resource;
  }
}
