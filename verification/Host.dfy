/** All processes of a host: their leases, the resources and the journal they
    share, and any interleaving of what they can do. Recovery works on copies of
    records that were read at any time before; the runs are those in which such a
    copy is still current when its resource is locked (`Recovery.StillCurrent`). */
module Hosts {
  import opened Dns
  import opened World
  import opened Durable
  import opened Backend
  import opened Live
  import opened Lifecycle
  import opened Recovery
  import opened Reconcile
  import opened Applying
  import opened Updating
  import opened Leases
  import Schedule
  import Journal

  // ----- apply

  predicate CaptureOf(n: Native, r: Record) {
    r.before == Current(n) && r.identity == Last(n).incarnation && Fresh(r)
  }

  /** A new lease captures a resource without a record. */
  lemma ObservedIsCaptured(a: Native, m: Native, n: Native, record: Record)
    requires DurableOk(a, map[]) && Foreign(a, m)
    requires n == m || (m.disclaimed && n == m.(disclaimed := false, adopted := m.adopted + {Generation(m)}))
    ensures DurableOk(n, map[])
    ensures n.present && !n.disclaimed && CaptureOf(n, record) ==> Captured(n, record)
  {
    DurableUnderForeign(a, m, map[]);
    Appended(m, n);
  }

  /** A live record whose overlay the lease owns and that will go back to
      `original`. */
  ghost predicate Held(live: LiveRecord, original: DnsState, plan: Plan)
    reads live, live.res
  {
    && Usable(live)
    && live.state == Committed
    && AsApplied(live.res.native, live.record)
    && live.record.before.state == original
    && StateMatches(Last(live.res.native).state, plan)
  }

  lemma TakenIsHeld(a: Native, live: LiveRecord, res: Resource, r: Record)
    requires Taken(a, live, res, r) && AsCaptured(a, r) && res.native.foreign == a.foreign && live.state == Committed
    ensures Held(live, r.before.state, r.desired)
  {
    hide DurableOk;
  }

  /** Captures one resource. */
  method ObserveOne(env: Env, res: Resource, ghost owner: string, ghost lease: nat, ghost plan: Plan) returns (r: Outcome<(nat, Snapshot)>)
    requires DurableOk(res.native, map[]) && res.files == map[]
    modifies res`native
    ensures DurableOk(res.native, map[])
    ensures r.Done? ==> Captured(res.native, InitialRecord(owner, lease, plan, r.value.1, r.value.0, false))
    ensures r.Done? ==> AsCaptured(res.native, InitialRecord(owner, lease, plan, r.value.1, r.value.0, false))
    ensures r.Died? ==> env.crashes
    ensures Calm(env) && old(res.native).present ==> !r.Fail?
    ensures Calm(env) && r.Done? ==> r.value.1.state == Last(old(res.native)).state
    ensures Calm(env) ==> res.native.log == old(res.native).log && res.native.present == old(res.native).present
  {
    ghost var a := res.native;
    r := res.Observe(env);
    ghost var m :| Foreign(a, m) && (res.native == m || (m.disclaimed && res.native == m.(disclaimed := false, adopted := m.adopted + {Generation(m)})));
    hide DurableOk, Foreign, Captured;
    ObservedIsCaptured(a, m, res.native, InitialRecord(owner, lease, plan, Current(res.native), Last(res.native).incarnation, false));
  }

  /** Recovers what an earlier process left on the resources, in order. */
  method ClearAll(env: Env, owner: string, resources: seq<Resource>) returns (r: Outcome<()>)
    requires Distinct(resources)
    requires forall i :: 0 <= i < |resources| ==> DurableOk(resources[i].native, resources[i].files)
    modifies resources`native, resources`files
    ensures forall i :: 0 <= i < |resources| ==> DurableOk(resources[i].native, resources[i].files)
    ensures r.Done? ==> forall i :: 0 <= i < |resources| ==> resources[i].files == map[]
    ensures r.Died? ==> env.crashes
    ensures (forall i :: 0 <= i < |resources| ==> old(resources[i].files) == map[]) ==>
              r.Done? && forall i :: 0 <= i < |resources| ==> resources[i].native == old(resources[i].native)
  {
    hide DurableOk;
    for k := 0 to |resources|
      invariant forall i :: 0 <= i < |resources| ==> DurableOk(resources[i].native, resources[i].files)
      invariant forall i :: 0 <= i < k ==> resources[i].files == map[]
      invariant forall i :: k <= i < |resources| ==> resources[i].native == old(resources[i].native) && resources[i].files == old(resources[i].files)
      invariant forall i :: 0 <= i < k ==> old(resources[i].files) == map[] ==> resources[i].native == old(resources[i].native)
    {
      r := RecoverForResource(env, resources[k], owner);
      if !r.Done? {
        return;
      }
    }
    r := Done(());
  }

  /** Captures every resource. */
  method ObserveAll(env: Env, resources: seq<Resource>, ghost owner: string, ghost lease: nat, ghost plan: Plan)
    returns (r: Outcome<()>, befores: seq<Snapshot>, identities: seq<nat>)
    requires Distinct(resources)
    requires forall i :: 0 <= i < |resources| ==> DurableOk(resources[i].native, map[]) && resources[i].files == map[]
    modifies resources`native
    ensures forall i :: 0 <= i < |resources| ==> DurableOk(resources[i].native, map[])
    ensures r.Done? ==> |befores| == |identities| == |resources|
    ensures r.Done? ==> forall i :: 0 <= i < |resources| ==>
              && Captured(resources[i].native, InitialRecord(owner, lease, plan, befores[i], identities[i], false))
              && AsCaptured(resources[i].native, InitialRecord(owner, lease, plan, befores[i], identities[i], false))
    ensures r.Died? ==> env.crashes
    ensures Calm(env) && (forall i :: 0 <= i < |resources| ==> old(resources[i].native).present) ==> !r.Fail?
    ensures Calm(env) && r.Done? ==> forall i :: 0 <= i < |resources| ==> befores[i].state == Last(old(resources[i].native)).state
  {
    hide DurableOk, Captured, AsCaptured;
    befores, identities := [], [];
    for k := 0 to |resources|
      invariant |befores| == |identities| == k
      invariant forall i :: 0 <= i < |resources| ==> DurableOk(resources[i].native, map[])
      invariant forall i :: k <= i < |resources| ==> resources[i].native == old(resources[i].native)
      invariant forall i :: 0 <= i < k ==>
                  && Captured(resources[i].native, InitialRecord(owner, lease, plan, befores[i], identities[i], false))
                  && AsCaptured(resources[i].native, InitialRecord(owner, lease, plan, befores[i], identities[i], false))
      invariant Calm(env) ==> forall i :: 0 <= i < k ==> befores[i].state == Last(old(resources[i].native)).state
    {
      var observed := ObserveOne(env, resources[k], owner, lease, plan);
      if !observed.Done? {
        r := observed.PropagateFailure();
        return;
      }
      identities := identities + [observed.value.0];
      befores := befores + [observed.value.1];
    }
    r := Done(());
  }

  /** The live records of a new lease. Each can undo what it did to its resource. */
  ghost predicate Granted(live: seq<LiveRecord>, resources: seq<Resource>, owner: string, lease: nat, plan: Plan)
    reads live, ResourcesOf(live)
  {
    && |live| == |resources|
    && Apart(live)
    && forall i :: 0 <= i < |live| ==>
         && live[i].res == resources[i]
         && live[i].Valid()
         && live[i].registered
         && live[i].record.owner == owner
         && live[i].record.lease == lease
         && live[i].record.desired == plan
         && (live[i].state == Committed || live[i].state.Verified?)
  }

  lemma TakenIsGranted(starts: seq<Native>, live: seq<LiveRecord>, resources: seq<Resource>, records: seq<Record>, owner: string, lease: nat, plan: Plan)
    requires |starts| == |live| == |resources| == |records| && Distinct(resources) && Distinct(live)
    requires forall i :: 0 <= i < |live| ==> Taken(starts[i], live[i], resources[i], records[i])
    requires forall i :: 0 <= i < |live| ==> records[i].owner == owner && records[i].lease == lease && records[i].desired == plan
    ensures Granted(live, resources, owner, lease, plan)
  {
    hide LiveRecord.Valid, Later;
    forall i | 0 <= i < |live|
      ensures live[i].res == resources[i] && live[i].Valid() && live[i].registered && SameClaim(live[i].record, records[i])
      ensures live[i].state == Committed || live[i].state.Verified?
    {
      assert Taken(starts[i], live[i], resources[i], records[i]);
    }
  }

  lemma GrantedIsDurable(live: seq<LiveRecord>, resources: seq<Resource>, owner: string, lease: nat, plan: Plan)
    requires Granted(live, resources, owner, lease, plan)
    ensures forall i :: 0 <= i < |resources| ==> DurableOk(resources[i].native, resources[i].files)
  {
    hide DurableOk, LiveOk;
    forall i | 0 <= i < |resources| ensures DurableOk(resources[i].native, resources[i].files) {
      assert live[i].Valid();
    }
  }

  /** No lease has a record of the resources, and they exist. */
  ghost predicate AllFree(resources: seq<Resource>)
    reads resources
  {
    forall x :: x in resources ==> x.files == map[] && x.native.present
  }

  ghost function StatesOf(resources: seq<Resource>): (r: seq<DnsState>)
    reads resources
    ensures |r| == |resources| && forall i :: 0 <= i < |r| ==> r[i] == Last(resources[i].native).state
  {
    seq(|resources|, i requires 0 <= i < |resources| reads resources => Last(resources[i].native).state)
  }

  /** Every resource shows the plan and will go back to its original state. */
  ghost predicate Shown(live: seq<LiveRecord>, originals: seq<DnsState>, plan: Plan)
    reads live, ResourcesOf(live)
  {
    |live| == |originals| && forall i :: 0 <= i < |live| ==> assert live[i].res == ResourcesOf(live)[i]; Held(live[i], originals[i], plan)
  }

  lemma GrantedCovers(live: seq<LiveRecord>, resources: seq<Resource>, owner: string, lease: nat, plan: Plan)
    requires Granted(live, resources, owner, lease, plan)
    ensures |live| == |resources| && forall i :: 0 <= i < |live| ==> live[i].res == resources[i]
  {
    hide LiveRecord.Valid;
  }

  /** The transaction of an apply, over captured resources. */
  method TransactCaptured(env: Env, owner: string, lease: nat, resources: seq<Resource>, plan: Plan, befores: seq<Snapshot>, identities: seq<nat>)
    returns (r: Outcome<Transaction>)
    requires Distinct(resources) && |befores| == |identities| == |resources|
    requires forall i :: 0 <= i < |resources| ==> resources[i].files == map[] && DurableOk(resources[i].native, map[])
    requires forall i :: 0 <= i < |resources| ==>
               && Captured(resources[i].native, InitialRecord(owner, lease, plan, befores[i], identities[i], false))
               && AsCaptured(resources[i].native, InitialRecord(owner, lease, plan, befores[i], identities[i], false))
    modifies resources`native, resources`files
    ensures forall i :: 0 <= i < |resources| ==> DurableOk(resources[i].native, resources[i].files)
    ensures r.Done? ==> Granted(r.value.live, resources, owner, lease, plan) && forall i :: 0 <= i < |resources| ==> fresh(r.value.live[i])
    ensures r.Died? ==> env.crashes
    ensures Calm(env) ==> !r.Fail? && (r.Done? ==> forall i :: 0 <= i < |resources| ==> Held(r.value.live[i], befores[i].state, plan))
  {
    hide DurableOk, Captured, Granted, Taken, Left, AsCaptured, Held;
    ghost var starts := Natives(resources);
    CapturedEither(starts, owner, lease, plan, befores, identities);
    ghost var records;
    r, records := TransactWithLocks(env, owner, lease, resources, plan, befores, identities);
    if r.Done? {
      TakenIsGranted(starts, r.value.live, resources, records, owner, lease, plan);
      GrantedIsDurable(r.value.live, resources, owner, lease, plan);
      if Calm(env) {
        AllHeld(starts, r.value.live, resources, records);
      }
    }
  }

  lemma AllHeld(starts: seq<Native>, live: seq<LiveRecord>, resources: seq<Resource>, records: seq<Record>)
    requires |starts| == |live| == |resources| == |records|
    requires forall i :: 0 <= i < |live| ==> Taken(starts[i], live[i], resources[i], records[i]) && AsCaptured(starts[i], records[i])
    requires forall i :: 0 <= i < |live| ==> resources[i].native.foreign == starts[i].foreign && live[i].state == Committed
    ensures forall i :: 0 <= i < |live| ==> Held(live[i], records[i].before.state, records[i].desired)
  {
    hide Taken, AsCaptured, Held;
    forall i | 0 <= i < |live| ensures Held(live[i], records[i].before.state, records[i].desired) {
      TakenIsHeld(starts[i], live[i], resources[i], records[i]);
    }
  }

  lemma CapturedEither(starts: seq<Native>, owner: string, lease: nat, plan: Plan, befores: seq<Snapshot>, identities: seq<nat>)
    requires |befores| == |identities| == |starts|
    requires forall i :: 0 <= i < |starts| ==> AsCaptured(starts[i], InitialRecord(owner, lease, plan, befores[i], identities[i], false))
    ensures forall noop, i :: 0 <= i < |starts| ==> AsCaptured(starts[i], InitialRecord(owner, lease, plan, befores[i], identities[i], noop))
  {
    forall noop, i | 0 <= i < |starts| ensures AsCaptured(starts[i], InitialRecord(owner, lease, plan, befores[i], identities[i], noop)) {
      assert AsCaptured(starts[i], InitialRecord(owner, lease, plan, befores[i], identities[i], false));
    }
  }

  /** An apply over locked resources: recover, capture, transact. */
  method ApplyLocked(env: Env, owner: string, lease: nat, resources: seq<Resource>, plan: Plan) returns (r: Outcome<Transaction>)
    requires Distinct(resources)
    requires forall i :: 0 <= i < |resources| ==> DurableOk(resources[i].native, resources[i].files)
    modifies resources`native, resources`files
    ensures forall i :: 0 <= i < |resources| ==> DurableOk(resources[i].native, resources[i].files)
    ensures r.Done? ==> Granted(r.value.live, resources, owner, lease, plan) && forall i :: 0 <= i < |resources| ==> fresh(r.value.live[i])
    ensures r.Died? ==> env.crashes
    ensures Calm(env) && (forall i :: 0 <= i < |resources| ==> old(resources[i].files) == map[] && old(resources[i].native).present) ==>
              && !r.Fail?
              && (r.Done? ==> forall i :: 0 <= i < |resources| ==> Held(r.value.live[i], Last(old(resources[i].native)).state, plan))
  {
    hide DurableOk, Captured, AsCaptured, Granted, Held;
    var cleared := ClearAll(env, owner, resources);
    if !cleared.Done? {
      return cleared.PropagateFailure();
    }
    var observed, befores, identities := ObserveAll(env, resources, owner, lease, plan);
    if !observed.Done? {
      return observed.PropagateFailure();
    }
    r := TransactCaptured(env, owner, lease, resources, plan, befores, identities);
  }

  // ----- all leases of all processes

  ghost function AllRepr(leases: seq<Lease>): set<object>
    reads leases
  {
    set e, o | e in leases && o in e.Repr() :: o
  }

  predicate Holds(leases: seq<Lease>, x: Resource)
    reads leases
  {
    exists e :: e in leases && x in e.locks
  }

  /** Which lease holds which locks. */
  ghost function LockMap(leases: seq<Lease>): map<Lease, seq<Resource>>
    reads leases
  {
    map e | e in leases :: e.locks
  }

  /** The leases hold locks of the host's resources, and share none. */
  predicate Apportioned(resources: seq<Resource>, locks: map<Lease, seq<Resource>>) {
    && (forall e, x :: e in locks && x in locks[e] ==> x in resources)
    && (forall e, f, x :: e in locks && f in locks && x in locks[e] && x in locks[f] ==> e == f)
  }

  /** Every resource keeps its journal promise, every lease owns its records,
      and no two leases hold the same lock. */
  ghost predicate Standing(resources: seq<Resource>, leases: seq<Lease>)
    reads resources, leases, AllRepr(leases)
  {
    && Distinct(resources)
    && Distinct(leases)
    && (forall x :: x in resources ==> DurableOk(x.native, x.files))
    && (forall e :: e in leases ==> e.Valid())
    && Apportioned(resources, LockMap(leases))
  }

  /** Only a lease holds a lock. */
  ghost predicate LocksHeld(resources: seq<Resource>, leases: seq<Lease>)
    reads resources, leases
  {
    forall x :: x in resources && x.locked ==> Holds(leases, x)
  }

  function Survivors(leases: seq<Lease>, process: nat): (r: seq<Lease>)
    ensures forall e :: e in r ==> e in leases && e.process != process
    ensures forall e :: e in leases && e.process != process ==> e in r
    ensures Distinct(leases) ==> Distinct(r)
  {
    if leases == [] then []
    else (if leases[0].process == process then [] else [leases[0]]) + Survivors(leases[1..], process)
  }

  /** The records and resources of two leases have nothing in common. */
  lemma Separate(resources: seq<Resource>, leases: seq<Lease>, e: Lease)
    requires Standing(resources, leases) && e in leases
    ensures forall f :: f in leases && f != e ==> f.Repr() !! e.Repr()
    ensures forall x :: x in ResourcesOf(e.live) ==> x in e.locks && x in resources
    ensures e.Repr() <= AllRepr(leases)
  {
    hide LiveRecord.Valid, DurableOk;
    forall f | f in leases
      ensures forall l :: l in f.live ==> l.res in f.locks
      ensures forall x :: x in ResourcesOf(f.live) ==> x in f.locks
    {
      assert f.Valid();
      OwnedIsMatched(f.live, f.locks);
    }
    forall f | f in leases && f != e
      ensures f.Repr() !! e.Repr()
    {
      assert LockMap(leases)[f] == f.locks && LockMap(leases)[e] == e.locks;
    }
    assert LockMap(leases)[e] == e.locks;
  }

  /** What is known before a step of the lease `e`. */
  lemma BeforeStep(resources: seq<Resource>, leases: seq<Lease>, e: Lease)
    requires Standing(resources, leases) && LocksHeld(resources, leases) && e in leases
    ensures e.Valid() && Distinct(resources) && Distinct(leases)
    ensures forall f :: f in leases && f != e ==> f.Repr() !! e.Repr()
    ensures forall f :: f in leases ==> f.Repr() <= AllRepr(leases)
    ensures forall x :: x in ResourcesOf(e.live) ==> x in e.locks && x in resources
    ensures forall x :: x in resources ==> DurableOk(x.native, x.files) && (x.locked ==> x in LockedOnes(resources))
    ensures var locks := LockMap(leases);
            && Apportioned(resources, locks)
            && locks.Keys == (set f | f in leases)
            && (forall f :: f in leases ==> locks[f] == f.locks)
            && (forall f :: f in leases && f != e ==> f.Valid())
            && (forall x :: x in e.locks ==> x in resources)
            && (forall x :: x in LockedOnes(resources) ==> HeldBy(locks, x))
  {
    hide DurableOk, Lease.Valid;
    Separate(resources, leases, e);
    HeldInMap(resources, leases);
  }

  /** Takes or frees a lock that no lease holds. */
  method SetLock(ghost resources: seq<Resource>, ghost leases: seq<Lease>, x: Resource, locked: bool)
    requires Standing(resources, leases) && !Holds(leases, x)
    modifies x`locked
    ensures Standing(resources, leases) && x.locked == locked
  {
    hide DurableOk, Lease.Valid;
    NotInvolved(resources, leases, x);
    x.locked := locked;
    assert forall e :: e in leases ==> e.Valid();
  }

  method FreeUnheld(resources: seq<Resource>, leases: seq<Lease>)
    requires Standing(resources, leases)
    modifies resources`locked
    ensures Standing(resources, leases) && LocksHeld(resources, leases)
  {
    hide Standing, Holds;
    for k := 0 to |resources|
      invariant Standing(resources, leases)
      invariant forall i :: 0 <= i < k && resources[i].locked ==> Holds(leases, resources[i])
    {
      if !Holds(leases, resources[k]) {
        SetLock(resources, leases, resources[k], false);
      }
    }
  }

  lemma NotInvolved(resources: seq<Resource>, leases: seq<Lease>, x: Resource)
    requires Standing(resources, leases) && !Holds(leases, x)
    ensures forall e :: e in leases ==> x !in e.Repr()
  {
    hide LiveRecord.Valid, DurableOk;
    forall e | e in leases ensures x !in e.Repr() {
      assert e.Valid();
      OwnedIsMatched(e.live, e.locks);
    }
  }

  /** After a step of one lease, its process may be killed. */
  lemma OthersStand(resources: seq<Resource>, leases: seq<Lease>, e: Lease, locks: map<Lease, seq<Resource>>)
    requires Distinct(resources) && Distinct(leases) && e in leases
    requires forall x :: x in resources ==> DurableOk(x.native, x.files)
    requires forall f :: f in leases && f != e ==> f.Valid() && f in locks && locks[f] == f.locks
    requires Apportioned(resources, locks)
    ensures Standing(resources, Survivors(leases, e.process))
  {
  }

  lemma SurvivorsStand(resources: seq<Resource>, leases: seq<Lease>, process: nat)
    requires Standing(resources, leases)
    ensures Standing(resources, Survivors(leases, process))
  {
    hide DurableOk, Lease.Valid;
    ghost var all, rest := LockMap(leases), LockMap(Survivors(leases, process));
    assert forall e :: e in rest ==> e in all && rest[e] == all[e];
  }

  /** After a step of one lease that freed some of its locks. */
  lemma LeaseStands(resources: seq<Resource>, leases: seq<Lease>, e: Lease, locks: map<Lease, seq<Resource>>)
    requires Distinct(resources) && Distinct(leases) && e in leases && e.Valid()
    requires forall x :: x in resources ==> DurableOk(x.native, x.files)
    requires forall f :: f in leases && f != e ==> f.Valid() && f in locks && locks[f] == f.locks
    requires Apportioned(resources, locks) && e in locks && forall x :: x in e.locks ==> x in locks[e]
    ensures Standing(resources, leases)
  {
    hide DurableOk, Lease.Valid;
  }

  ghost function LockedOnes(resources: seq<Resource>): set<Resource>
    reads resources
  {
    set x | x in resources && x.locked
  }

  predicate HeldBy(locks: map<Lease, seq<Resource>>, x: Resource) {
    exists f :: f in locks && x in locks[f]
  }

  lemma HeldInMap(resources: seq<Resource>, leases: seq<Lease>)
    requires LocksHeld(resources, leases)
    ensures forall x :: x in LockedOnes(resources) ==> HeldBy(LockMap(leases), x)
  {
    forall x | x in LockedOnes(resources) ensures HeldBy(LockMap(leases), x) {
      assert Holds(leases, x);
      var e :| e in leases && x in e.locks;
      assert e in LockMap(leases) && x in LockMap(leases)[e];
    }
  }

  /** Locks are only freed by their lease. */
  lemma LocksStayHeld(resources: seq<Resource>, leases: seq<Lease>, e: Lease, locks: map<Lease, seq<Resource>>, locked: set<Resource>)
    requires e in leases && e in locks
    requires forall f :: f in locks ==> f in leases
    requires forall f :: f in leases && f != e ==> f in locks && locks[f] == f.locks
    requires forall x :: x in locked ==> HeldBy(locks, x)
    requires forall x :: x in resources && x.locked ==> x in locked || x in locks[e]
    requires forall x :: x in locks[e] && x.locked ==> x in e.locks
    ensures LocksHeld(resources, leases)
  {
    forall x | x in resources && x.locked ensures Holds(leases, x) {
      if x !in locks[e] {
        var f :| f in locks && x in locks[f];
        assert x in f.locks;
      }
    }
  }

  lemma NoPart(leases: seq<Lease>, x: Resource)
    requires forall e :: e in leases ==> x !in ResourcesOf(e.live)
    ensures forall e :: e in leases ==> x !in e.Repr()
  {
  }

  /** Locks that nobody holds belong to no lease. */
  lemma UnlockedAreFree(resources: seq<Resource>, leases: seq<Lease>, free: seq<Resource>)
    requires Standing(resources, leases)
    requires forall x :: x in free ==> !x.locked
    ensures forall e, x :: e in leases && x in free ==> x !in e.Repr() && x !in e.locks
    ensures forall x :: x in free ==> !Holds(leases, x)
  {
    hide LiveRecord.Valid, DurableOk;
    forall e | e in leases
      ensures forall x :: x in free ==> x !in e.Repr() && x !in e.locks
    {
      assert e.Valid();
      OwnedIsMatched(e.live, e.locks);
    }
  }

  lemma GrantStands(resources: seq<Resource>, leases: seq<Lease>, e: Lease)
    requires Standing(resources, leases) && e !in leases && e.Valid()
    requires forall x :: x in e.locks ==> x in resources
    requires forall f, x :: f in leases && x in e.locks ==> x !in f.locks
    ensures Standing(resources, leases + [e])
  {
    hide DurableOk, Lease.Valid;
    var before, after := LockMap(leases), LockMap(leases + [e]);
    assert forall f :: f in leases ==> f in before && before[f] == f.locks;
    assert forall f :: f in after ==> f == e || (f in before && before[f] == after[f]);
  }

  lemma GrantedIsOwned(live: seq<LiveRecord>, resources: seq<Resource>, owner: string, lease: nat, plan: Plan)
    requires Granted(live, resources, owner, lease, plan)
    requires forall x :: x in resources ==> x.locked
    ensures Owned(live, resources) && Agreed(live)
  {
    hide LiveRecord.Valid;
    forall l | l in live ensures l.res in resources {
      var i :| 0 <= i < |live| && live[i] == l;
    }
    forall x | x in resources ensures exists l :: l in live && l.res == x {
      var i :| 0 <= i < |resources| && resources[i] == x;
      assert live[i] in live;
    }
  }

  /** Frees locks that no lease holds. */
  method ReleaseAll(ghost resources: seq<Resource>, ghost leases: seq<Lease>, taken: seq<Resource>)
    requires Standing(resources, leases)
    requires forall x :: x in taken ==> !Holds(leases, x)
    modifies taken`locked
    ensures Standing(resources, leases)
    ensures forall x :: x in taken ==> !x.locked
  {
    hide Standing, Holds;
    for k := 0 to |taken|
      invariant Standing(resources, leases)
      invariant forall i :: 0 <= i < k ==> !taken[i].locked
    {
      SetLock(resources, leases, taken[k], false);
    }
  }

  /** Takes every lock, or none. */
  method AcquireAll(ghost resources: seq<Resource>, ghost leases: seq<Lease>, wanted: seq<Resource>) returns (ok: bool)
    requires Standing(resources, leases) && Distinct(wanted)
    modifies wanted`locked
    ensures Standing(resources, leases)
    ensures ok ==> forall i :: 0 <= i < |wanted| ==> wanted[i].locked && !old(wanted[i].locked) && !Holds(leases, wanted[i])
    ensures !ok ==> forall i :: 0 <= i < |wanted| ==> wanted[i].locked == old(wanted[i].locked)
    ensures (forall i :: 0 <= i < |wanted| ==> !old(wanted[i].locked)) ==> ok
    ensures AllFree(wanted) == old(AllFree(wanted)) && StatesOf(wanted) == old(StatesOf(wanted))
  {
    hide Standing, Holds;
    for k := 0 to |wanted|
      invariant Standing(resources, leases)
      invariant forall i :: 0 <= i < k ==> wanted[i].locked && !old(wanted[i].locked) && !Holds(leases, wanted[i])
      invariant forall i :: k <= i < |wanted| ==> wanted[i].locked == old(wanted[i].locked)
    {
      if wanted[k].locked {
        ReleaseAll(resources, leases, wanted[..k]);
        assert forall i :: 0 <= i < k ==> wanted[i] in wanted[..k];
        return false;
      }
      UnlockedAreFree(resources, leases, [wanted[k]]);
      assert wanted[k] in [wanted[k]];
      SetLock(resources, leases, wanted[k], true);
    }
    ok := true;
  }

  /** An apply under locks that no lease holds. */
  method ApplyAmong(env: Env, ghost resources: seq<Resource>, ghost leases: seq<Lease>, owner: string, lease: nat, wanted: seq<Resource>, plan: Plan)
    returns (r: Outcome<Transaction>)
    requires Standing(resources, leases) && Distinct(wanted)
    requires forall i :: 0 <= i < |wanted| ==> wanted[i] in resources && !Holds(leases, wanted[i])
    modifies wanted`native, wanted`files
    ensures Standing(resources, leases)
    ensures r.Done? ==> Granted(r.value.live, wanted, owner, lease, plan) && forall i :: 0 <= i < |wanted| ==> fresh(r.value.live[i])
    ensures r.Died? ==> env.crashes
    ensures Calm(env) && old(AllFree(wanted)) ==> !r.Fail? && (r.Done? ==> Shown(r.value.live, old(StatesOf(wanted)), plan))
  {
    hide DurableOk, Lease.Valid, Apportioned, Holds, Held;
    ghost var originals := StatesOf(wanted);
    forall e, i | e in leases && 0 <= i < |wanted| ensures wanted[i] !in e.Repr() {
      NotInvolved(resources, leases, wanted[i]);
    }
    assert forall e, o :: e in leases && o in e.Repr() ==> allocated(o);
    r := ApplyLocked(env, owner, lease, wanted, plan);
    assert forall e :: e in leases ==> e.Valid();
    forall x | x in resources ensures DurableOk(x.native, x.files) {
      if x in wanted {
        var i :| 0 <= i < |wanted| && wanted[i] == x;
      }
    }
  }

  /** Other writers change a resource that a lease holds. */
  method DisturbHeld(env: Env, ghost resources: seq<Resource>, ghost leases: seq<Lease>, e: Lease, x: Resource)
    requires Standing(resources, leases) && e in leases && x in ResourcesOf(e.live) && x in resources
    modifies x`native
    ensures Standing(resources, leases)
  {
    hide DurableOk, Lease.Valid, Apportioned;
    var i :| 0 <= i < |e.live| && ResourcesOf(e.live)[i] == x;
    Separate(resources, leases, e);
    e.Disturb(env, i);
    assert forall f :: f in leases && f != e ==> f.Valid();
  }

  /** Other writers change a resource that no lease holds. */
  method DisturbFree(env: Env, ghost resources: seq<Resource>, ghost leases: seq<Lease>, x: Resource)
    requires Standing(resources, leases) && x in resources && forall e :: e in leases ==> x !in ResourcesOf(e.live)
    modifies x`native
    ensures Standing(resources, leases)
  {
    hide DurableOk, Lease.Valid, Apportioned, ForeignStrict;
    NoPart(leases, x);
    ghost var a := x.native;
    x.Interfere(env);
    DurableUnderForeign(a, x.native, x.files);
    assert forall f :: f in leases ==> f.Valid();
  }

  /** Recovery touches nothing that a lease holds. */
  method RecoverAround(env: Env, resources: seq<Resource>, ghost leases: seq<Lease>, owner: string) returns (r: Outcome<seq<Recovered>>)
    requires Standing(resources, leases)
    modifies resources
    ensures Standing(resources, leases)
    ensures (r.Fail? ==> env.failures) && (r.Died? ==> env.crashes)
    ensures !r.Died? ==> forall i :: 0 <= i < |resources| ==> resources[i].locked == old(resources[i].locked)
    ensures r.Done? ==> |r.value| == |resources| && forall i :: 0 <= i < |resources| ==>
              Swept(old(resources[i].native), old(resources[i].files), resources[i].native, resources[i].files, resources[i].locked, owner, env, r.value[i])
  {
    hide DurableOk, Lease.Valid, Apportioned, Swept;
    HeldAreLocked(resources, leases);
    assert forall e, o :: e in leases && o in e.Repr() ==> allocated(o);
    r := RecoverStale(env, resources, owner);
    assert forall e :: e in leases ==> e.Valid();
  }

  /** Recovering one listed copy touches nothing that a lease holds. */
  method RecoverOneAround(env: Env, ghost resources: seq<Resource>, ghost leases: seq<Lease>, x: Resource, record: Record, owner: string)
    returns (r: Outcome<Recovered>)
    requires Standing(resources, leases) && x in resources
    requires x.locked || record.owner != owner || MayRecover(x.native, x.files, record)
    modifies x
    ensures Standing(resources, leases)
    ensures !r.Fail? && (r.Died? ==> env.crashes)
    ensures r.Done? ==> x.locked == old(x.locked)
    ensures old(x.locked) ==> unchanged(x)
    ensures record.owner != owner ==> unchanged(x) && r == Done(ForeignOwner)
    ensures record.owner == owner && old(x.locked) ==> r == Done(Busy)
    ensures old(!x.locked && MayRecover(x.native, x.files, record)) && record.owner == owner && r.Done? ==>
              Attempted(old(x.native), old(x.files), record, x.native, x.files, env, r.value)
  {
    hide DurableOk, Lease.Valid, Apportioned, Attempted, MayRecover, PeacefulRecovery;
    ghost var held := x.locked;
    if !held {
      UnlockedAreFree(resources, leases, [x]);
      assert x in [x];
    }
    assert forall e, o :: e in leases && o in e.Repr() ==> allocated(o);
    r := RecoverListed(env, x, record, owner);
    if !held {
      assert forall e :: e in leases ==> e.Valid();
    }
  }

  /** Somebody reads the record of a resource that a lease holds. */
  method NoteHeld(ghost resources: seq<Resource>, ghost leases: seq<Lease>, e: Lease, x: Resource, record: Record)
    requires Standing(resources, leases) && e in leases && x in ResourcesOf(e.live) && x in resources
    requires record.lease in x.files && x.files[record.lease] == record
    modifies x`native
    ensures Standing(resources, leases)
    ensures x.native == Noted(old(x.native), record)
  {
    hide DurableOk, Lease.Valid, Apportioned;
    var i :| 0 <= i < |e.live| && ResourcesOf(e.live)[i] == x;
    Separate(resources, leases, e);
    e.Note(i, record);
    assert forall f :: f in leases && f != e ==> f.Valid();
  }

  /** Somebody reads the record of a resource that no lease holds. */
  method NoteFree(ghost resources: seq<Resource>, ghost leases: seq<Lease>, x: Resource, record: Record)
    requires Standing(resources, leases) && x in resources && forall e :: e in leases ==> x !in ResourcesOf(e.live)
    requires record.lease in x.files && x.files[record.lease] == record
    modifies x`native
    ensures Standing(resources, leases)
    ensures x.native == Noted(old(x.native), record)
  {
    hide DurableOk, Lease.Valid, Apportioned;
    NoPart(leases, x);
    DurableUnderNote(x.native, x.files, record);
    x.native := Noted(x.native, record);
    assert forall f :: f in leases ==> f.Valid();
  }

  method ListAround(env: Env, ghost resources: seq<Resource>, leases: seq<Lease>, x: Resource) returns (r: Outcome<Option<Record>>)
    requires Standing(resources, leases) && x in resources
    modifies x`native
    ensures Standing(resources, leases)
    ensures r.Done? ==> Lists(r.value, x.files) && (r.value.Some? ==> r.value.value in x.native.listed)
    ensures (r.Fail? ==> env.failures) && (r.Died? ==> env.crashes)
  {
    hide DurableOk, Lease.Valid, Apportioned;
    assert forall e, o :: e in leases && o in e.Repr() ==> allocated(o);
    r := ListRecord(env, x);
    assert forall e :: e in leases ==> e.Valid();
    if r.Done? && r.value.Some? {
      if e: Lease :| e in leases && x in ResourcesOf(e.live) {
        NoteHeld(resources, leases, e, x, r.value.value);
      } else {
        NoteFree(resources, leases, x, r.value.value);
      }
    }
  }

  /** What was ever read from the journal of a resource is still true of its past. */
  lemma ListedIsTruthful(resources: seq<Resource>, leases: seq<Lease>)
    requires Standing(resources, leases)
    ensures forall x, r :: x in resources && r in x.native.listed ==> Truthful(x.native, r)
  {
    hide Lease.Valid, Truthful;
    forall x, r | x in resources && r in x.native.listed ensures Truthful(x.native, r) {
      assert DurableOk(x.native, x.files);
    }
  }

  lemma HeldAreLocked(resources: seq<Resource>, leases: seq<Lease>)
    requires Standing(resources, leases)
    ensures forall e, i :: e in leases && 0 <= i < |resources| && resources[i] in e.Repr() ==> resources[i].locked
  {
    hide LiveRecord.Valid, DurableOk;
    forall e, i | e in leases && 0 <= i < |resources| && resources[i] in e.Repr() ensures resources[i].locked {
      assert e.Valid();
    }
  }

  /** Giving up a journal touches nothing that a lease holds. */
  method ForsakeAround(env: Env, ghost resources: seq<Resource>, ghost leases: seq<Lease>, x: Resource) returns (r: Outcome<()>)
    requires Standing(resources, leases) && x in resources && !Holds(leases, x)
    modifies x`native, x`files
    ensures Standing(resources, leases)
    ensures r.Done? ==> x.files == map[]
    ensures (r.Fail? ==> env.failures) && (r.Died? ==> env.crashes)
  {
    hide DurableOk, Lease.Valid, Apportioned, Holds;
    NotInvolved(resources, leases, x);
    r := ForsakeJournal(env, x);
    assert forall e :: e in leases ==> e.Valid();
  }

  lemma NotHeld(leases: seq<Lease>, wanted: seq<Resource>)
    requires forall i :: 0 <= i < |wanted| ==> !Holds(leases, wanted[i])
    ensures forall f, x :: f in leases && x in wanted ==> x !in f.locks
  {
  }

  lemma HeldWithGrant(leases: seq<Lease>, e: Lease)
    ensures forall x: Resource :: Holds(leases, x) || x in e.locks ==> Holds(leases + [e], x)
  {
    forall x: Resource | Holds(leases, x) || x in e.locks ensures Holds(leases + [e], x) {
      if x in e.locks {
        assert e in leases + [e];
      } else {
        var f :| f in leases && x in f.locks;
        assert f in leases + [e];
      }
    }
  }

  lemma GrantedRepr(live: seq<LiveRecord>, wanted: seq<Resource>, owner: string, lease: nat, plan: Plan)
    requires Granted(live, wanted, owner, lease, plan)
    ensures |live| == |wanted| && forall o :: o in ReprOf(live) ==> o in live || o in wanted
  {
    hide LiveRecord.Valid;
    forall o | o in ReprOf(live) ensures o in live || o in wanted {
      if i :| 0 <= i < |live| && o == ResourcesOf(live)[i] {
        assert wanted[i] == o;
      }
    }
  }

  /** The lease of a transaction that succeeded. */
  method Grant(ghost resources: seq<Resource>, ghost leases: seq<Lease>, process: nat, transaction: Transaction, ghost owner: string, ghost lease: nat, ghost plan: Plan, wanted: seq<Resource>)
    returns (e: Lease)
    requires Standing(resources, leases) && Granted(transaction.live, wanted, owner, lease, plan)
    requires forall i :: 0 <= i < |wanted| ==> wanted[i] in resources && wanted[i].locked && !Holds(leases, wanted[i])
    ensures fresh(e) && e.process == process && e.locks == wanted && e.live == transaction.live
    ensures Standing(resources, leases + [e])
    ensures forall x :: Holds(leases, x) || x in wanted ==> Holds(leases + [e], x)
    ensures forall o :: o in AllRepr(leases + [e]) ==> o in AllRepr(leases) || o == e || o in wanted || o in transaction.live
    ensures |e.live| == |wanted|
  {
    hide DurableOk, Lease.Valid, Granted, Holds, Apportioned;
    GrantedRepr(transaction.live, wanted, owner, lease, plan);
    GrantedIsOwned(transaction.live, wanted, owner, lease, plan);
    NotHeld(leases, wanted);
    assert forall f, o :: f in leases && o in f.Repr() ==> allocated(o);
    e := new Lease(process, transaction.noop, transaction.live, wanted);
    assert forall f :: f in leases ==> f.Valid();
    GrantStands(resources, leases, e);
    HeldWithGrant(leases, e);
  }

  /** Gives up whatever the journal says about a resource. */
  method ForsakeJournal(env: Env, res: Resource) returns (r: Outcome<()>)
    requires DurableOk(res.native, res.files)
    modifies res`native, res`files
    ensures DurableOk(res.native, res.files)
    ensures r.Done? ==> res.files == map[]
    ensures res.native == if old(res.files) == map[] then old(res.native) else old(res.native).(disclaimed := true)
    ensures (r.Fail? ==> env.failures) && (r.Died? ==> env.crashes)
  {
    hide DurableOk;
    if res.files == map[] {
      return Done(());
    }
    var lease :| lease in res.files;
    ghost var n, files := res.native, res.files;
    OnlyRecord(n, files, lease);
    res.native := res.native.(disclaimed := true);
    r := res.JournalRemove(env, lease);
    DisclaimedIsDurable(n, files, res.files, lease);
    assert (files - {lease}).Keys == {};
  }

  /** The whole journal directory, by resource. */
  function FilesOf(resources: seq<Resource>): seq<Files>
    reads resources
  {
    seq(|resources|, i requires 0 <= i < |resources| reads resources => resources[i].files)
  }

  function NativesOf(resources: seq<Resource>): seq<Native>
    reads resources
  {
    seq(|resources|, i requires 0 <= i < |resources| reads resources => resources[i].native)
  }

  lemma JournalIsReadable(resources: seq<Resource>, leases: seq<Lease>)
    requires Standing(resources, leases)
    ensures forall directory :: Journal.Lists(directory, FilesOf(resources)) ==> Journal.Readable(directory)
  {
    hide DurableOk, Lease.Valid;
    forall directory | Journal.Lists(directory, FilesOf(resources)) ensures Journal.Readable(directory) {
      Journal.ReachableIsReadable(directory, NativesOf(resources), FilesOf(resources));
    }
  }

  lemma LeasesAreWellFormed(resources: seq<Resource>, leases: seq<Lease>)
    requires Standing(resources, leases)
    ensures forall e :: e in leases ==> forall l :: l in e.live ==>
              WellFormed(l.res.native, l.res.files, l.record, l.state, l.registered)
  {
    hide DurableOk, LiveOk, WellFormed;
    forall e, l | e in leases && l in e.live
      ensures WellFormed(l.res.native, l.res.files, l.record, l.state, l.registered)
    {
      assert e.Valid();
      var i :| 0 <= i < |e.live| && e.live[i] == l;
      assert l.Valid();
      LiveIsWellFormed(l.res.native, l.res.files, l.record, l.state, l.registered);
    }
  }

  class Host {
    const resources: seq<Resource>
    var leases: seq<Lease>

    ghost predicate Valid()
      reads this, resources, leases, AllRepr(leases)
    {
      Standing(resources, leases) && LocksHeld(resources, leases)
    }

    /** A host with these resources, before any process used the engine. */
    constructor (states: seq<DnsState>)
      ensures Valid() && leases == [] && |resources| == |states|
      ensures forall i :: 0 <= i < |states| ==> fresh(resources[i]) && Current(resources[i].native) == Snapshot(states[i], 0)
    {
      var all: seq<Resource> := [];
      for k := 0 to |states|
        invariant |all| == k && Distinct(all)
        invariant forall i :: 0 <= i < k ==>
                    && fresh(all[i])
                    && !all[i].locked
                    && DurableOk(all[i].native, all[i].files)
                    && Current(all[i].native) == Snapshot(states[i], 0)
      {
        var res := new Resource(states[k]);
        all := all + [res];
      }
      resources := all;
      leases := [];
    }

    /** Whatever the leases consist of was there before, is a resource, or is new. */
    twostate predicate Grown(before: set<object>)
      reads this, leases
    {
      forall o :: o in AllRepr(leases) ==> o in before || o in resources || fresh(o)
    }

    /** A process is gone: its leases are forgotten, and the operating system
        frees the locks that no surviving lease holds. */
    method Kill(process: nat)
      requires Standing(resources, Survivors(leases, process))
      modifies this`leases, resources`locked
      ensures Valid() && leases == Survivors(old(leases), process)
      ensures AllRepr(leases) <= old(AllRepr(leases))
    {
      hide Standing, LocksHeld;
      var remaining := Survivors(leases, process);
      FreeUnheld(resources, remaining);
      NotShared(remaining);
      leases := remaining;
    }

    /** The host itself is no part of any lease. */
    lemma NotShared(leases: seq<Lease>)
      ensures this !in AllRepr(leases)
    {
      forall e: Lease | e in leases ensures this !in e.Repr() {
        assert forall o :: o in e.Repr() ==> o is Lease || o is LiveRecord || o is Resource;
      }
    }

    /** After a step of the lease `e`, whose locks were `locks[e]`, the host is valid. */
    lemma LeaseConcluded(e: Lease, locks: map<Lease, seq<Resource>>, locked: set<Resource>, all: set<object>)
      requires Distinct(resources) && Distinct(leases) && e in leases
      requires forall x :: x in resources ==> DurableOk(x.native, x.files)
      requires forall f :: f in leases && f != e ==> f.Valid() && f in locks && locks[f] == f.locks
      requires Apportioned(resources, locks) && locks.Keys == (set f | f in leases)
      requires e.Valid()
      requires forall x :: x in e.locks ==> x in locks[e]
      requires forall x :: x in locked ==> HeldBy(locks, x)
      requires forall x :: x in resources && x.locked ==> x in locked || x in locks[e]
      requires forall x :: x in locks[e] && x.locked ==> x in e.locks
      requires forall f :: f in leases ==> f.Repr() <= all
      ensures Valid() && AllRepr(leases) <= all
    {
      hide DurableOk, Lease.Valid, Apportioned, Holds, HeldBy, Standing;
      assert forall f, o :: f in leases && o in f.Repr() ==> o in all;
      LeaseStands(resources, leases, e, locks);
      LocksStayHeld(resources, leases, e, locks, locked);
    }

    /** The process of the lease `e` died in a step of it. */
    method Fall(e: Lease, ghost locks: map<Lease, seq<Resource>>, ghost all: set<object>)
      requires Distinct(resources) && Distinct(leases) && e in leases
      requires forall x :: x in resources ==> DurableOk(x.native, x.files)
      requires forall f :: f in leases && f != e ==> f.Valid() && f in locks && locks[f] == f.locks
      requires Apportioned(resources, locks)
      requires forall f :: f in leases && f != e ==> f.Repr() <= all
      modifies this`leases, resources`locked
      ensures Valid() && AllRepr(leases) <= all
      ensures leases == Survivors(old(leases), e.process)
    {
      hide DurableOk, Lease.Valid, Apportioned, Holds, Standing;
      assert forall f, o :: f in leases && f != e && o in f.Repr() ==> o in all;
      OthersStand(resources, leases, e, locks);
      Kill(e.process);
    }

    /** A lease is restored. */
    method RestoreLease(env: Env, k: nat) returns (r: Outcome<()>, ghost was: seq<View>, ghost outs: seq<Outcome<()>>)
      requires Valid() && k < |leases|
      modifies this`leases, resources, AllRepr(leases)
      ensures Valid() && AllRepr(leases) <= old(AllRepr(leases))
      ensures !r.Died? ==> leases == old(leases)
      ensures r.Died? ==> env.crashes && leases == Survivors(old(leases), old(leases[k].process))
      ensures was == old(ViewsOf(leases[k].live))
      ensures old(leases[k].ended) ==> r == Fail(LeaseNotActive)
      ensures !r.Died? && !old(leases[k].ended) ==> AllGiven(old(leases[k].live), was, true, env, outs)
      ensures r.Done? ==> leases[k].ended
      ensures !old(leases[k].ended) && r.Fail? ==> leases[k].phase == LeasePhase.Restoring && r in outs
    {
      hide DurableOk, Lease.Valid, AllGiven, Apportioned, HeldBy, Standing, LocksHeld, LockMap, LockedOnes, AllRepr, Survivors, Distinct;
      var e := leases[k];
      BeforeStep(resources, leases, e);
      was := ViewsOf(e.live);
      ghost var locks, locked, all := LockMap(leases), LockedOnes(resources), AllRepr(leases);
      r, outs := e.RestoreState(env, was);
      if r.Died? {
        Fall(e, locks, all);
      } else {
        LeaseConcluded(e, locks, locked, all);
      }
    }

    /** A lease is abandoned. */
    method AbandonLease(env: Env, k: nat) returns (r: Outcome<()>, ghost was: seq<View>, ghost outs: seq<Outcome<()>>)
      requires Valid() && k < |leases|
      modifies this`leases, resources, AllRepr(leases)
      ensures Valid() && AllRepr(leases) <= old(AllRepr(leases))
      ensures !r.Died? ==> leases == old(leases)
      ensures r.Died? ==> env.crashes && leases == Survivors(old(leases), old(leases[k].process))
      ensures was == old(ViewsOf(leases[k].live))
      ensures !r.Died? ==> AllGiven(old(leases[k].live), was, false, env, outs)
      ensures r.Done? ==> leases[k].ended
      ensures r.Fail? ==> leases[k].phase == Abandoning && r in outs
    {
      hide DurableOk, Lease.Valid, AllGiven, Apportioned, HeldBy, Standing, LocksHeld, LockMap, LockedOnes, AllRepr, Survivors, Distinct;
      var e := leases[k];
      BeforeStep(resources, leases, e);
      was := ViewsOf(e.live);
      ghost var locks, locked, all := LockMap(leases), LockedOnes(resources), AllRepr(leases);
      r, outs := e.AbandonState(env, was);
      if r.Died? {
        Fall(e, locks, all);
      } else {
        LeaseConcluded(e, locks, locked, all);
      }
    }

    /** A lease goes out of scope. */
    method DropLease(env: Env, k: nat) returns (r: Outcome<()>, ghost was: seq<View>, ghost outs: seq<Outcome<()>>)
      requires Valid() && k < |leases|
      modifies this`leases, resources, AllRepr(leases)
      ensures Valid() && AllRepr(leases) <= old(AllRepr(leases))
      ensures !r.Fail?
      ensures !r.Died? ==> leases == old(leases)
      ensures r.Died? ==> env.crashes && leases == Survivors(old(leases), old(leases[k].process))
      ensures was == old(ViewsOf(leases[k].live))
      ensures r.Done? ==> leases[k].ended && AllGivenUp(old(leases[k].live), was, old(leases[k].phase) != Abandoning, env, outs)
    {
      hide DurableOk, Lease.Valid, AllGivenUp, Apportioned, HeldBy, Standing, LocksHeld, LockMap, LockedOnes, AllRepr, Survivors, Distinct;
      var e := leases[k];
      BeforeStep(resources, leases, e);
      was := ViewsOf(e.live);
      ghost var locks, locked, all := LockMap(leases), LockedOnes(resources), AllRepr(leases);
      r, outs := e.Drop(env, was);
      if r.Died? {
        Fall(e, locks, all);
      } else {
        LeaseConcluded(e, locks, locked, all);
      }
    }

    /** A lease is moved to another plan. */
    method UpdateLease(env: Env, k: nat, plan: Plan, wanted: seq<Resource>) returns (r: Outcome<()>, ghost was: seq<View>, ghost priors: seq<Record>)
      requires Valid() && k < |leases|
      modifies this`leases, resources, AllRepr(leases)
      ensures Valid() && AllRepr(leases) <= old(AllRepr(leases))
      ensures !r.Died? ==> leases == old(leases)
      ensures r.Died? ==> env.crashes && leases == Survivors(old(leases), old(leases[k].process))
      ensures was == old(ViewsOf(leases[k].live))
      ensures !r.Died? ==> leases[k].live == old(leases[k].live)
      ensures r.Done? ==> AllUpdatedTo(leases[k].live, was, priors, plan)
      ensures !Fits(wanted, old(leases[k].live)) ==> !r.Done?
      ensures old(MayUpdate(leases[k], plan, wanted, env)) ==> !r.Fail?
    {
      hide DurableOk, Lease.Valid, Apportioned, HeldBy, Standing, LocksHeld, LockMap, LockedOnes, AllRepr, Survivors, Distinct, AllUpdatedTo, OneDesire, Fits, AllAsApplied, AllThere, Unmoved, AllRegistered;
      var e := leases[k];
      BeforeStep(resources, leases, e);
      was := ViewsOf(e.live);
      ghost var locks, locked, all := LockMap(leases), LockedOnes(resources), AllRepr(leases);
      r, priors := e.Update(env, plan, wanted, was);
      if r.Died? {
        Fall(e, locks, all);
      } else {
        LeaseConcluded(e, locks, locked, all);
      }
    }

    /** One resource of a lease is reconciled. */
    method ReconcileLease<K>(env: Env, k: nat, i: nat, reconciler: Schedule.Reconciler<K>, key: K, now: nat) returns (r: Outcome<Verdict>)
      requires Valid() && k < |leases| && i < |leases[k].live|
      modifies this`leases, resources, AllRepr(leases), reconciler
      ensures Valid() && AllRepr(leases) <= old(AllRepr(leases))
      ensures !r.Died? ==> leases == old(leases)
      ensures r.Died? ==> env.crashes && leases == Survivors(old(leases), old(leases[k].process))
      ensures old(leases[k].live[i].registered) ==>
                var l := old(leases[k].live[i]);
                && Pass(old(l.res.native), old(l.record), old(l.state), l.res.native, l.record, l.state, env, r)
                && (r != Done(NoActiveLease) ==>
                      Gated(old(l.res.native), old(l.record), old(l.state), l.res.native, l.record, l.state, env, r, key, now, old(reconciler.breaker), reconciler.breaker))
    {
      hide DurableOk, Lease.Valid, Pass, Gated, Apportioned, HeldBy, Standing, LocksHeld, LockMap, LockedOnes, AllRepr, Survivors, Distinct;
      var e := leases[k];
      BeforeStep(resources, leases, e);
      ghost var locks, locked, all := LockMap(leases), LockedOnes(resources), AllRepr(leases);
      InRepr(e.live);
      r := e.ReconcileEntry(env, i, reconciler, key, now);
      if r.Died? {
        Fall(e, locks, all);
      } else {
        LeaseConcluded(e, locks, locked, all);
      }
    }

    /** A process dies between two operations. */
    method Crash(process: nat)
      requires Valid()
      modifies this`leases, resources`locked
      ensures Valid() && AllRepr(leases) <= old(AllRepr(leases))
      ensures leases == Survivors(old(leases), process)
    {
      hide DurableOk, Lease.Valid;
      SurvivorsStand(resources, leases, process);
      Kill(process);
    }

    /** Other writers change a resource between two operations. */
    method Outside(env: Env, k: nat)
      requires Valid() && k < |resources|
      modifies resources`native
      ensures Valid() && AllRepr(leases) <= old(AllRepr(leases))
    {
      hide Standing, Holds;
      var x := resources[k];
      if e :| e in leases && x in ResourcesOf(e.live) {
        DisturbHeld(env, resources, leases, e, x);
      } else {
        DisturbFree(env, resources, leases, x);
      }
    }

    /** A process that is going to recover reads the record of a resource,
        without taking its lock. */
    method List(env: Env, k: nat) returns (r: Outcome<Option<Record>>)
      requires Valid() && k < |resources|
      modifies resources`native
      ensures Valid() && AllRepr(leases) <= old(AllRepr(leases))
      ensures r.Done? ==> Lists(r.value, resources[k].files) && (r.value.Some? ==> r.value.value in resources[k].native.listed)
      ensures (r.Fail? ==> env.failures) && (r.Died? ==> env.crashes)
    {
      hide Standing, Holds;
      r := ListAround(env, resources, leases, resources[k]);
    }

    /** A process recovers a resource from a copy that it read at any time before,
        between two operations or in the middle of one: from any record whose
        account of the past is true. The copy must still be current when the lock is
        taken. */
    method RecoverCopy(env: Env, process: nat, owner: string, k: nat, record: Record) returns (r: Outcome<Recovered>)
      requires Valid() && k < |resources| && Truthful(resources[k].native, record)
      requires resources[k].locked || record.owner != owner || StillCurrent(resources[k].native, resources[k].files, record)
      modifies this`leases, resources
      ensures Valid() && AllRepr(leases) <= old(AllRepr(leases))
      ensures r.Done? ==> leases == old(leases)
      ensures old(resources[k].locked) || record.owner != owner ==> r == Done(if record.owner != owner then ForeignOwner else Busy)
      ensures r.Done? && old(!resources[k].locked) && record.owner == owner ==>
                Attempted(old(resources[k].native), old(resources[k].files), record, resources[k].native, resources[k].files, env, r.value)
      ensures !r.Fail? && (r.Died? ==> env.crashes)
    {
      hide Standing, Holds, StillCurrent, Truthful, Attempted;
      assert resources[k].locked || record.owner != owner || MayRecover(resources[k].native, resources[k].files, record);
      r := RecoverOneAround(env, resources, leases, resources[k], record, owner);
      if r.Died? {
        SurvivorsStand(resources, leases, process);
        Kill(process);
      }
    }

    /** Everything that dead processes of `owner` left is recovered in one
        uninterrupted pass. */
    method Recover(env: Env, process: nat, owner: string) returns (r: Outcome<seq<Recovered>>)
      requires Valid()
      modifies this`leases, resources
      ensures Valid() && AllRepr(leases) <= old(AllRepr(leases))
      ensures !r.Died? ==> leases == old(leases)
      ensures (r.Fail? ==> env.failures) && (r.Died? ==> env.crashes)
      ensures r.Done? ==> |r.value| == |resources| && forall i :: 0 <= i < |resources| ==>
                Swept(old(resources[i].native), old(resources[i].files), resources[i].native, resources[i].files, resources[i].locked, owner, env, r.value[i])
    {
      hide Standing, Holds, Swept;
      r := RecoverAround(env, resources, leases, owner);
      if r.Died? {
        SurvivorsStand(resources, leases, process);
        Kill(process);
      }
    }

    /** An operator gives up the journal of a resource that no lease holds. */
    method AbandonJournal(env: Env, process: nat, owner: string, k: nat) returns (r: Outcome<()>)
      requires Valid() && k < |resources|
      modifies this`leases, resources
      ensures Valid() && AllRepr(leases) <= old(AllRepr(leases))
      ensures old(resources[k].locked) ==> r == Fail(Conflict)
      ensures !OwnedBy(old(resources[k].files), owner) ==> r == Fail(Conflict) && resources[k].files == old(resources[k].files)
      ensures r.Done? ==> resources[k].files == map[]
      ensures !env.failures && !old(resources[k].locked) && OwnedBy(old(resources[k].files), owner) ==> !r.Fail?
      ensures r.Died? ==> env.crashes && leases == Survivors(old(leases), process)
      ensures !r.Died? ==> leases == old(leases)
    {
      hide Standing, Holds, DurableOk;
      var x := resources[k];
      if x.locked || exists l :: l in x.files && x.files[l].owner != owner {
        return Fail(Conflict);
      }
      UnlockedAreFree(resources, leases, [x]);
      assert x in [x];
      r := ForsakeAround(env, resources, leases, x);
      if r.Died? {
        SurvivorsStand(resources, leases, process);
        Kill(process);
      }
    }

    /** A process applies a plan to some resources. A successful apply adds a
        lease that holds exactly their locks; any other outcome adds none. */
    method Apply(env: Env, process: nat, owner: string, lease: nat, wanted: seq<Resource>, plan: Plan) returns (r: Outcome<Lease>)
      requires Valid() && Distinct(wanted) && forall i :: 0 <= i < |wanted| ==> wanted[i] in resources
      modifies this`leases, resources
      ensures Valid()
      ensures r.Done? ==>
                && leases == old(leases) + [r.value]
                && fresh(r.value)
                && r.value.locks == wanted
                && r.value.process == process
                && Granted(r.value.live, wanted, owner, lease, plan)
      ensures r.Fail? ==> leases == old(leases)
      ensures r.Died? ==> env.crashes && leases == Survivors(old(leases), process)
      ensures Grown(old(AllRepr(leases)))
      // an undisturbed apply to free resources succeeds, and each of them shows the
      // plan and will go back to what it showed before
      ensures Calm(env) && old(AllFree(wanted)) && (forall i :: 0 <= i < |wanted| ==> !old(wanted[i].locked)) ==>
                !r.Fail? && (r.Done? ==> Shown(r.value.live, old(StatesOf(wanted)), plan))
    {
      hide DurableOk, Lease.Valid, Granted, Holds, Standing, AllRepr, Held, AllFree, Shown;
      var ok := AcquireAll(resources, leases, wanted);
      if !ok {
        return Fail(Conflict);
      }
      assert forall x :: x in resources && x.locked ==> Holds(leases, x) || x in wanted;
      r := ApplyTaken(env, process, owner, lease, wanted, plan);
    }

    /** The rest of an apply, under locks that it has just taken. */
    method ApplyTaken(env: Env, process: nat, owner: string, lease: nat, wanted: seq<Resource>, plan: Plan) returns (r: Outcome<Lease>)
      requires Standing(resources, leases) && Distinct(wanted)
      requires forall i :: 0 <= i < |wanted| ==> wanted[i] in resources && wanted[i].locked && !Holds(leases, wanted[i])
      requires forall x :: x in resources && x.locked ==> Holds(leases, x) || x in wanted
      modifies this`leases, resources
      ensures Valid()
      ensures r.Done? ==>
                && leases == old(leases) + [r.value]
                && fresh(r.value)
                && r.value.locks == wanted
                && r.value.process == process
                && Granted(r.value.live, wanted, owner, lease, plan)
      ensures r.Fail? ==> leases == old(leases)
      ensures r.Died? ==> env.crashes && leases == Survivors(old(leases), process)
      ensures Grown(old(AllRepr(leases)))
      ensures Calm(env) && old(AllFree(wanted)) ==> !r.Fail? && (r.Done? ==> Shown(r.value.live, old(StatesOf(wanted)), plan))
    {
      hide DurableOk, Lease.Valid, Granted, Holds, Standing, AllRepr, Held, AllFree, Shown;
      ghost var originals := StatesOf(wanted);
      var applied := ApplyAmong(env, resources, leases, owner, lease, wanted, plan);
      match applied {
        case Died =>
          SurvivorsStand(resources, leases, process);
          Kill(process);
          r := Died;
        case Fail(error) =>
          ReleaseAll(resources, leases, wanted);
          r := Fail(error);
        case Done(transaction) =>
          var e := AddLease(process, transaction, owner, lease, plan, wanted, originals);
          r := Done(e);
      }
    }

    /** Adds the lease of a transaction that succeeded under fresh locks. */
    method AddLease(process: nat, transaction: Transaction, ghost owner: string, ghost lease: nat, ghost plan: Plan, wanted: seq<Resource>, ghost originals: seq<DnsState>) returns (e: Lease)
      requires Standing(resources, leases) && Granted(transaction.live, wanted, owner, lease, plan)
      requires forall i :: 0 <= i < |wanted| ==> wanted[i] in resources && wanted[i].locked && !Holds(leases, wanted[i])
      requires forall x :: x in resources && x.locked ==> Holds(leases, x) || x in wanted
      modifies this`leases
      ensures Valid()
      ensures fresh(e) && e.process == process && e.locks == wanted && e.live == transaction.live && leases == old(leases) + [e]
      ensures forall o :: o in AllRepr(leases) ==> o in old(AllRepr(leases)) || o == e || o in wanted || o in transaction.live
      ensures |transaction.live| == |wanted| && Granted(e.live, wanted, owner, lease, plan)
      ensures old(Shown(transaction.live, originals, plan)) ==> Shown(e.live, originals, plan)
    {
      hide DurableOk, Lease.Valid, Holds, Standing, AllRepr, LiveRecord.Valid, Held;
      GrantedCovers(transaction.live, wanted, owner, lease, plan);
      e := Grant(resources, leases, process, transaction, owner, lease, plan, wanted);
      NotShared(leases + [e]);
      leases := leases + [e];
    }

    /** One step of anybody: an operation of some process, the death of a
        process, or a write by someone else. */
    method Step(env: Env, reconciler: Schedule.Reconciler<nat>)
      requires Valid()
      modifies this`leases, resources, AllRepr(leases), reconciler
      ensures Valid() && Grown(old(AllRepr(leases)))
    {
      hide Standing, LocksHeld, AllRepr, DurableOk;
      var k: nat, i: nat, key: nat, now: nat, process: nat, lease: nat := *, *, *, *, *, *;
      var owner: string, plan: Plan, wanted: seq<Resource>, record: Record := *, *, *, *;
      if {
        case Distinct(wanted) && forall j :: 0 <= j < |wanted| ==> wanted[j] in resources =>
          var _ := Apply(env, process, owner, lease, wanted, plan);
        case k < |leases| => var _, _, _ := UpdateLease(env, k, plan, wanted);
        case k < |leases| => var _, _, _ := RestoreLease(env, k);
        case k < |leases| => var _, _, _ := AbandonLease(env, k);
        case k < |leases| => var _, _, _ := DropLease(env, k);
        case k < |leases| && i < |leases[k].live| => var _ := ReconcileLease(env, k, i, reconciler, key, now);
        case true => var _ := Recover(env, process, owner);
        case k < |resources| => var _ := List(env, k);
        case k < |resources| && Truthful(resources[k].native, record)
          && (resources[k].locked || record.owner != owner || StillCurrent(resources[k].native, resources[k].files, record)) =>
          var _ := RecoverCopy(env, process, owner, k, record);
        case k < |resources| => var _ := AbandonJournal(env, process, owner, k);
        case k < |resources| => Outside(env, k);
        case true => Crash(process);
      }
    }

    /** Every run of any length keeps the host valid, every resource safe, every
        record of every lease well formed, and the whole journal readable. */
    method Run(steps: nat, reconciler: Schedule.Reconciler<nat>)
      requires Valid()
      modifies this`leases, resources, AllRepr(leases), reconciler
      ensures Valid()
      ensures forall x :: x in resources ==>
                NothingLost(x.native) && WrittenAhead(x.native, x.files) && BasesAreForeign(x.native, x.files) && |x.files| <= 1
      ensures forall x, r :: x in resources && r in x.native.listed ==> Truthful(x.native, r)
      ensures forall e :: e in leases ==> forall l :: l in e.live ==>
                WellFormed(l.res.native, l.res.files, l.record, l.state, l.registered)
      ensures forall directory :: Journal.Lists(directory, FilesOf(resources)) ==> Journal.Readable(directory)
    {
      for n := 0 to steps
        invariant Valid() && Grown(old(AllRepr(leases)))
      {
        var env: Env := *;
        Step(env, reconciler);
      }
      forall x | x in resources
        ensures NothingLost(x.native) && WrittenAhead(x.native, x.files) && BasesAreForeign(x.native, x.files) && |x.files| <= 1
      {
        DurableIsSafe(x.native, x.files);
      }
      ListedIsTruthful(resources, leases);
      LeasesAreWellFormed(resources, leases);
      JournalIsReadable(resources, leases);
    }
  }
}
