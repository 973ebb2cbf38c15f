/** A lease: the live records and inter-process locks of one transaction, from
    apply to restore, abandon or drop. */
module Leases {
  import opened Dns
  import opened World
  import opened Durable
  import opened Backend
  import opened Engine
  import opened Live
  import opened Lifecycle
  import opened Restoring
  import opened Applying
  import opened Reconcile
  import opened Updating
  import Schedule

  datatype LeasePhase = Active | Restoring | Abandoning

  function Without<T(==)>(s: seq<T>, x: T): (r: seq<T>)
    ensures forall y :: y in r ==> y in s && y != x
    ensures forall y :: y in s && y != x ==> y in r
  {
    if s == [] then [] else (if s[0] == x then [] else [s[0]]) + Without(s[1..], x)
  }

  /** The locks are exactly the resources of the records. */
  predicate Matched(locks: seq<Resource>, live: seq<LiveRecord>) {
    && (forall l :: l in live ==> l.res in locks)
    && (forall x :: x in locks ==> exists l :: l in live && l.res == x)
  }

  lemma UnregisteredOk(n: Native, files: Files, r: Record, s: LiveState, registered: bool)
    requires LiveOk(n, files, r, s, registered)
    ensures LiveOk(n, files, r, s, false)
  {
  }

  /** Giving up the claim on the present state of a resource. */
  lemma DisclaimedIsDurable(n: Native, files: Files, f: Files, lease: nat)
    requires DurableOk(n, files)
    requires f == files || f == files - {lease}
    ensures DurableOk(n.(disclaimed := true), files) && DurableOk(n.(disclaimed := true), f)
  {
    var m := n.(disclaimed := true);
    Appended(n, m);
    if f == files - {lease} {
      DurableUnderRemove(m, files, lease);
    }
  }

  lemma DisclaimedOk(n: Native, files: Files, f: Files, r: Record, s: LiveState)
    requires DurableOk(n, files) && LiveOk(n, files, r, s, false)
    requires f == files || f == files - {r.lease}
    ensures var m := n.(disclaimed := true);
            DurableOk(m, f) && LiveOk(m, f, r, s, false)
    ensures f == files - {r.lease} ==> f == map[]
  {
    hide DurableOk;
    DisclaimedIsDurable(n, files, f, r.lease);
    if f == files - {r.lease} {
      assert f.Keys == {};
    }
    if s.Repair? && s.next.Compensating? {
      assert PendingOk(n.(disclaimed := true), s.next.pending, r.before.state);
    }
  }

  /** What ending the claim on one resource did. */
  ghost predicate Ended(live: LiveRecord, was: View, out: Outcome<()>)
    reads live, live.res
  {
    && !out.Died?
    && !live.registered
    && DurableOk(live.res.native, live.res.files)
    && (out.Done? ==> live.res.files == map[] && !live.res.locked)
    && (out.Fail? ==> live.Valid() && live.res.locked && SameClaim(live.record, was.record))
  }

  /** Restores one resource, and releases its lock when that succeeds. */
  method RestoreOne(env: Env, live: LiveRecord, ghost was: View) returns (r: Outcome<()>)
    requires live.Valid() && live.res.locked && was == ViewOf(live)
    modifies live, live.res
    ensures DurableOk(live.res.native, live.res.files)
    ensures !r.Died? ==> Ended(live, was, r) && Restoration(was.native, was.record, was.state, live.res.native, env, r)
    ensures r.Died? ==> env.crashes
  {
    hide DurableOk, LiveOk, Restoration;
    UnregisteredOk(live.res.native, live.res.files, live.record, live.state, live.registered);
    live.registered := false;
    r := RestoreLive(env, live);
    if r.Done? {
      live.res.locked := false;
    }
  }

  /** Gives up one resource without touching it. */
  method AbandonOne(env: Env, live: LiveRecord, ghost was: View) returns (r: Outcome<()>)
    requires live.Valid() && live.res.locked && was == ViewOf(live)
    modifies live, live.res
    ensures DurableOk(live.res.native, live.res.files)
    ensures !r.Died? ==> Ended(live, was, r)
    ensures live.res.native == was.native.(disclaimed := true)
    ensures r.Fail? ==> env.failures
    ensures r.Died? ==> env.crashes
  {
    hide DurableOk, LiveOk;
    ghost var n, files := live.res.native, live.res.files;
    UnregisteredOk(n, files, live.record, live.state, live.registered);
    live.registered := false;
    live.res.native := live.res.native.(disclaimed := true);
    r := live.res.JournalRemove(env, live.record.lease);
    DisclaimedOk(n, files, live.res.files, live.record, live.state);
    if r.Done? {
      live.res.locked := false;
    }
  }

  /** After `outs`, the records that are still owned, and exactly the locks of
      those and of the records that were not reached. */
  predicate Tally(live: seq<LiveRecord>, outs: seq<Outcome<()>>, kept: seq<LiveRecord>, locks: seq<Resource>) {
    && |outs| <= |live|
    && Apart(kept)
    && (forall l :: l in kept ==> exists i :: 0 <= i < |outs| && live[i] == l && outs[i].Fail?)
    && (forall i :: 0 <= i < |outs| && outs[i].Fail? ==> live[i] in kept)
    && Matched(locks, kept + live[|outs|..])
  }

  lemma TallyStarts(live: seq<LiveRecord>, locks: seq<Resource>)
    requires Apart(live) && Matched(locks, live)
    ensures Tally(live, [], [], locks)
  {
    assert [] + live[0..] == live;
  }

  /** Moving the boundary between two parts moves no member. */
  lemma SameMembers(kept: seq<LiveRecord>, live: seq<LiveRecord>, k: nat)
    requires k < |live|
    ensures (kept + [live[k]]) + live[k + 1..] == kept + live[k..]
    ensures forall l :: l in kept + [live[k]] <==> l in kept || l == live[k]
  {
    assert live[k..] == [live[k]] + live[k + 1..];
  }

  lemma TallyKeeps(live: seq<LiveRecord>, outs: seq<Outcome<()>>, kept: seq<LiveRecord>, locks: seq<Resource>, out: Outcome<()>)
    requires Apart(live) && Tally(live, outs, kept, locks) && |outs| < |live| && out.Fail?
    ensures Tally(live, outs + [out], kept + [live[|outs|]], locks)
  {
    hide Matched;
    var k := |outs|;
    SameMembers(kept, live, k);
    KeptApart(live, outs, kept);
    forall l | l in kept + [live[k]]
      ensures exists i :: 0 <= i < k + 1 && live[i] == l && (outs + [out])[i].Fail?
    {
      if l in kept {
        var i :| 0 <= i < k && live[i] == l && outs[i].Fail?;
        assert (outs + [out])[i].Fail?;
      } else {
        assert (outs + [out])[k].Fail?;
      }
    }
    forall i | 0 <= i < k + 1 && (outs + [out])[i].Fail? ensures live[i] in kept + [live[k]] {
      if i < k {
        assert outs[i].Fail?;
      }
    }
  }

  lemma KeptApart(live: seq<LiveRecord>, outs: seq<Outcome<()>>, kept: seq<LiveRecord>)
    requires Apart(live) && Apart(kept) && |outs| < |live|
    requires forall l :: l in kept ==> exists i :: 0 <= i < |outs| && live[i] == l && outs[i].Fail?
    ensures Apart(kept + [live[|outs|]])
  {
    var k, more := |outs|, kept + [live[|outs|]];
    forall i | 0 <= i < |kept| ensures kept[i] != live[k] && kept[i].res != live[k].res {
      assert kept[i] in kept;
      var j :| 0 <= j < k && live[j] == kept[i] && outs[j].Fail?;
    }
    forall i, j | 0 <= i < j < |more| ensures more[i] != more[j] && more[i].res != more[j].res {
      if j < |kept| {
        assert more[i] == kept[i] && more[j] == kept[j];
      }
    }
  }

  lemma TallyDrops(live: seq<LiveRecord>, outs: seq<Outcome<()>>, kept: seq<LiveRecord>, locks: seq<Resource>, out: Outcome<()>)
    requires Apart(live) && Tally(live, outs, kept, locks) && |outs| < |live| && out.Done?
    ensures Tally(live, outs + [out], kept, Without(locks, live[|outs|].res))
  {
    var k, x := |outs|, live[|outs|].res;
    var before, after := kept + live[k..], kept + live[k + 1..];
    assert live[k..] == [live[k]] + live[k + 1..];
    forall l | l in kept ensures l.res != x {
      var i :| 0 <= i < k && live[i] == l && outs[i].Fail?;
    }
    forall l | l in after ensures l.res in Without(locks, x) {
      assert l in before;
      if l !in kept {
        var i :| k + 1 <= i < |live| && live[i] == l;
      }
    }
    forall y | y in Without(locks, x) ensures exists l :: l in after && l.res == y {
      var l :| l in before && l.res == y;
      assert l in after;
    }
    forall l | l in kept
      ensures exists i :: 0 <= i < k + 1 && live[i] == l && (outs + [out])[i].Fail?
    {
      var i :| 0 <= i < k && live[i] == l && outs[i].Fail?;
      assert (outs + [out])[i].Fail?;
    }
  }

  /** The records are live, and the lease holds exactly their locks. */
  ghost predicate Owned(live: seq<LiveRecord>, locks: seq<Resource>)
    reads live, ResourcesOf(live)
  {
    && Apart(live)
    && Matched(locks, live)
    && forall i :: 0 <= i < |live| ==> live[i].Valid() && live[i].res.locked
  }

  /** All records of the lease carry one intent. */
  ghost predicate Agreed(live: seq<LiveRecord>)
    reads live
  {
    forall i, j :: 0 <= i < |live| && 0 <= j < |live| ==> live[i].record.desired == live[j].record.desired
  }

  predicate AgreedViews(was: seq<View>) {
    forall i, j :: 0 <= i < |was| && 0 <= j < |was| ==> was[i].record.desired == was[j].record.desired
  }

  lemma AgreedAreViewed(live: seq<LiveRecord>, was: seq<View>)
    requires Agreed(live) && AllViewed(live, was)
    ensures AgreedViews(was) && |was| == |live|
  {
  }

  /** What ending one claim did, by restoration or by abandoning it. */
  ghost predicate Given(live: LiveRecord, was: View, restoring: bool, env: Env, out: Outcome<()>)
    reads live, live.res
  {
    && Ended(live, was, out)
    && (restoring ==> Restoration(was.native, was.record, was.state, live.res.native, env, out))
    && (!restoring ==> live.res.native == was.native.(disclaimed := true) && (out.Fail? ==> env.failures))
  }

  ghost predicate AllGiven(live: seq<LiveRecord>, was: seq<View>, restoring: bool, env: Env, outs: seq<Outcome<()>>)
    reads live, ResourcesOf(live)
  {
    |was| == |live| == |outs| && forall i :: 0 <= i < |live| ==> Given(live[i], was[i], restoring, env, outs[i])
  }

  lemma NothingIsGiven(live: seq<LiveRecord>, was: seq<View>, env: Env)
    requires live == [] && AllViewed(live, was)
    ensures AllGiven(live, was, false, env, [])
  {
  }

  method EndOne(env: Env, live: LiveRecord, restoring: bool, ghost was: View) returns (r: Outcome<()>)
    requires live.Valid() && live.res.locked && was == ViewOf(live)
    modifies live, live.res
    ensures DurableOk(live.res.native, live.res.files)
    ensures !r.Died? ==> Given(live, was, restoring, env, r)
    ensures r.Died? ==> env.crashes
  {
    hide DurableOk, LiveOk, Restoration, Ended;
    if restoring {
      r := RestoreOne(env, live, was);
    } else {
      r := AbandonOne(env, live, was);
    }
  }

  /** The first failure of a series of outcomes, if there is one. */
  function FirstFailure(outs: seq<Outcome<()>>): (r: Outcome<()>)
    ensures r.Done? ==> forall i :: 0 <= i < |outs| ==> outs[i].Done?
    ensures !r.Done? ==> r in outs
  {
    if outs == [] then Done(())
    else if outs[0].Done? then FirstFailure(outs[1..])
    else outs[0]
  }

  lemma {:induction false} FirstFailureStep(outs: seq<Outcome<()>>, out: Outcome<()>)
    ensures FirstFailure(outs + [out]) == if FirstFailure(outs).Done? then out else FirstFailure(outs)
  {
    assert out.Done? ==> out.value == ();
    if outs != [] && outs[0].Done? {
      FirstFailureStep(outs[1..], out);
      assert (outs + [out])[1..] == outs[1..] + [out];
    } else if outs == [] {
      assert outs + [out] == [out];
    }
  }

  /** Ends one claim after the other, keeping those that could not be ended. */
  method EndAll(env: Env, live: seq<LiveRecord>, locks: seq<Resource>, restoring: bool, ghost was: seq<View>)
    returns (r: Outcome<()>, kept: seq<LiveRecord>, left: seq<Resource>, ghost outs: seq<Outcome<()>>)
    requires Owned(live, locks) && AllViewed(live, was)
    modifies live, ResourcesOf(live)
    ensures forall i :: 0 <= i < |live| ==> DurableOk(live[i].res.native, live[i].res.files)
    ensures !r.Died? ==> |outs| == |live| && Tally(live, outs, kept, left) && r == FirstFailure(outs)
    ensures !r.Died? ==> AllGiven(live, was, restoring, env, outs)
    ensures r.Died? ==> env.crashes
  {
    hide DurableOk, Given, LiveRecord.Valid, Tally, ViewOf, Apart, Matched, FirstFailure;
    r, kept, left, outs := Done(()), [], locks, [];
    TallyStarts(live, locks);
    EndingStarts(live, was);
    for k := 0 to |live|
      invariant |outs| == k
      invariant forall i :: k <= i < |live| ==> live[i].Valid() && live[i].res.locked && ViewOf(live[i]) == was[i]
      invariant Tally(live, outs, kept, left)
      invariant forall i :: 0 <= i < k ==> Given(live[i], was[i], restoring, env, outs[i])
      invariant !r.Died? && r == FirstFailure(outs)
    {
      var ended := EndOne(env, live[k], restoring, was[k]);
      OthersApart(live, k);
      if ended.Died? {
        EndingIsDurable(live, was, restoring, env, outs);
        r := Died;
        return;
      }
      FirstFailureStep(outs, ended);
      if ended.Done? {
        TallyDrops(live, outs, kept, left, ended);
        left := Without(left, live[k].res);
      } else {
        TallyKeeps(live, outs, kept, left, ended);
        kept := kept + [live[k]];
      }
      if r.Done? {
        r := ended;
      }
      outs := outs + [ended];
    }
    EndingIsDurable(live, was, restoring, env, outs);
  }

  lemma EndingIsDurable(live: seq<LiveRecord>, was: seq<View>, restoring: bool, env: Env, outs: seq<Outcome<()>>)
    requires |outs| <= |live| == |was|
    ensures forall i :: 0 <= i < |outs| && Given(live[i], was[i], restoring, env, outs[i]) ==> DurableOk(live[i].res.native, live[i].res.files)
    ensures forall i :: 0 <= i < |live| && live[i].Valid() ==> DurableOk(live[i].res.native, live[i].res.files)
  {
    hide DurableOk, LiveOk, Restoration;
  }

  lemma EndingStarts(live: seq<LiveRecord>, was: seq<View>)
    requires AllViewed(live, was)
    requires forall i :: 0 <= i < |live| ==> live[i].Valid()
    ensures |was| == |live| && forall i :: 0 <= i < |live| ==> ViewOf(live[i]) == was[i]
    ensures FirstFailure([]) == Done(())
  {
    hide DurableOk, LiveOk;
  }

  // ----- the lease

  lemma TallyIsOwned(live: seq<LiveRecord>, was: seq<View>, outs: seq<Outcome<()>>, kept: seq<LiveRecord>, locks: seq<Resource>)
    requires |outs| == |live| == |was| && Tally(live, outs, kept, locks)
    requires forall i :: 0 <= i < |live| ==> Ended(live[i], was[i], outs[i])
    requires AgreedViews(was)
    ensures Owned(kept, locks) && Agreed(kept)
    ensures forall l :: l in kept ==> l in live && !l.registered
  {
    hide LiveRecord.Valid, DurableOk, FirstFailure;
    assert kept + live[|outs|..] == kept;
    forall l | l in kept
      ensures l.Valid() && l.res.locked && !l.registered && l in live
      ensures exists i :: 0 <= i < |live| && live[i] == l && l.record.desired == was[i].record.desired
    {
      var i :| 0 <= i < |outs| && live[i] == l && outs[i].Fail?;
      assert Ended(live[i], was[i], outs[i]);
    }
  }

  /** Nothing remains exactly when every claim ended. */
  lemma TallyIsEmpty(live: seq<LiveRecord>, outs: seq<Outcome<()>>, kept: seq<LiveRecord>, locks: seq<Resource>)
    requires |outs| == |live| && Tally(live, outs, kept, locks)
    ensures FirstFailure(outs).Done? ==> kept == [] && locks == []
    ensures FirstFailure(outs).Fail? ==> kept != []
  {
    assert kept + live[|outs|..] == kept;
    assert locks != [] ==> locks[0] in locks;
    assert kept != [] ==> kept[0] in kept;
    if FirstFailure(outs).Fail? {
      var i :| 0 <= i < |outs| && outs[i] == FirstFailure(outs);
      assert live[i] in kept;
    }
  }

  lemma TallyLocks(live: seq<LiveRecord>, outs: seq<Outcome<()>>, kept: seq<LiveRecord>, locks: seq<Resource>)
    requires |outs| == |live| && Tally(live, outs, kept, locks)
    ensures forall i :: 0 <= i < |live| && outs[i].Fail? ==> live[i].res in locks
    ensures forall x :: x in locks ==> x in ResourcesOf(live)
  {
    assert kept + live[|outs|..] == kept;
    forall x | x in locks ensures x in ResourcesOf(live) {
      var l :| l in kept && l.res == x;
      var i :| 0 <= i < |live| && live[i] == l;
      assert ResourcesOf(live)[i] == x;
    }
  }

  /** What became of the locks: one that was not released is still held. */
  ghost predicate Freed(before: seq<Resource>, after: seq<Resource>)
    reads before
  {
    && (forall x :: x in after ==> x in before)
    && (forall x :: x in before ==> DurableOk(x.native, x.files) && (x.locked ==> x in after))
  }

  lemma FreedAfter(live: seq<LiveRecord>, before: seq<Resource>, after: seq<Resource>)
    requires Matched(before, live)
    requires forall i :: 0 <= i < |live| ==> DurableOk(live[i].res.native, live[i].res.files) && (live[i].res.locked ==> live[i].res in after)
    requires forall x :: x in after ==> x in ResourcesOf(live)
    ensures Freed(before, after)
  {
    hide DurableOk;
    forall x | x in after ensures x in before {
      var i :| 0 <= i < |live| && ResourcesOf(live)[i] == x;
      assert live[i] in live;
    }
    DurableEverywhere(live, before);
    forall x | x in before && x.locked ensures x in after {
      var l :| l in live && l.res == x;
      var i :| 0 <= i < |live| && live[i] == l;
    }
  }

  lemma DurableEverywhere(live: seq<LiveRecord>, locks: seq<Resource>)
    requires Matched(locks, live)
    requires forall i :: 0 <= i < |live| ==> DurableOk(live[i].res.native, live[i].res.files)
    ensures forall x :: x in locks ==> DurableOk(x.native, x.files)
  {
    hide DurableOk;
    forall x | x in locks ensures DurableOk(x.native, x.files) {
      var l :| l in live && l.res == x;
      var i :| 0 <= i < |live| && live[i] == l;
    }
  }

  /** The records and their resources. */
  ghost function ReprOf(live: seq<LiveRecord>): set<object> {
    (set i | 0 <= i < |live| :: live[i] as object) + (set i | 0 <= i < |live| :: ResourcesOf(live)[i] as object)
  }

  lemma ReprShrinks(a: seq<LiveRecord>, b: seq<LiveRecord>)
    requires forall l :: l in a ==> l in b
    ensures ReprOf(a) <= ReprOf(b)
  {
    forall i | 0 <= i < |a| ensures a[i] in ReprOf(b) && ResourcesOf(a)[i] in ReprOf(b) {
      assert a[i] in a;
      var j :| 0 <= j < |b| && b[j] == a[i];
      assert ResourcesOf(b)[j] == ResourcesOf(a)[i];
    }
  }

  lemma InRepr(live: seq<LiveRecord>)
    ensures forall i :: 0 <= i < |live| ==> live[i] in ReprOf(live) && ResourcesOf(live)[i] in ReprOf(live)
  {
  }

  class Lease {
    const process: nat
    const noop: bool
    var live: seq<LiveRecord>
    var locks: seq<Resource>
    var phase: LeasePhase
    var ended: bool

    /** The lease, its records and their resources. */
    ghost function Repr(): set<object>
      reads this
    {
      {this as object} + ReprOf(live)
    }

    ghost predicate Valid()
      reads this, Repr()
    {
      && Owned(live, locks)
      && Agreed(live)
      && (phase != Active ==> forall i :: 0 <= i < |live| ==> !live[i].registered)
      && (ended ==> live == [] && locks == [])
    }

    constructor (process: nat, noop: bool, live: seq<LiveRecord>, locks: seq<Resource>)
      requires Owned(live, locks) && Agreed(live)
      ensures Valid() && this.live == live && this.locks == locks && this.process == process && this.noop == noop && phase == Active && !ended
    {
      this.process := process;
      this.noop := noop;
      this.live := live;
      this.locks := locks;
      phase := Active;
      ended := false;
    }

    /** Restores every resource that is still owned, and ends the lease when
        that succeeds for all of them. */
    method RestoreState(env: Env, ghost was: seq<View>) returns (r: Outcome<()>, ghost outs: seq<Outcome<()>>)
      requires Valid() && AllViewed(live, was)
      modifies Repr()
      ensures forall x :: x in old(locks) ==> DurableOk(x.native, x.files)
      ensures !r.Died? ==> Freed(old(locks), locks)
      ensures !r.Died? ==> Valid() && Repr() <= old(Repr())
      ensures old(ended) ==> r == Fail(LeaseNotActive)
      ensures !old(ended) && !r.Died? ==> AllGiven(old(live), was, true, env, outs)
      ensures !old(ended) && r.Done? ==> ended
      ensures !old(ended) && r.Fail? ==> !ended && phase == Restoring && live != [] && r in outs
      ensures r.Died? ==> env.crashes
    {
      hide DurableOk, AllGiven, Ended, Tally, LiveRecord.Valid, FirstFailure, Owned, Agreed, AllViewed, ReprOf;
      InRepr(live);
      AgreedAreViewed(live, was);
      if ended {
        return Fail(LeaseNotActive), [];
      }
      ghost var all, held := live, locks;
      OwnedIsMatched(live, locks);
      r, live, locks, outs := EndAll(env, live, locks, true, was);
      DurableEverywhere(all, held);
      if r.Died? {
        return;
      }
      if r.Done? {
        ended := true;
      } else {
        phase := Restoring;
      }
      GivenIsOwned(all, was, true, env, outs, live, locks, r);
      ReprShrinks(live, all);
      FreedAfter(all, held, locks);
    }

    /** Gives up every claim of the lease; the resources stay as they are. */
    method AbandonState(env: Env, ghost was: seq<View>) returns (r: Outcome<()>, ghost outs: seq<Outcome<()>>)
      requires Valid() && AllViewed(live, was)
      modifies Repr()
      ensures forall x :: x in old(locks) ==> DurableOk(x.native, x.files)
      ensures !r.Died? ==> Freed(old(locks), locks)
      ensures !r.Died? ==> Valid() && Repr() <= old(Repr())
      ensures !r.Died? ==> AllGiven(old(live), was, false, env, outs)
      ensures r.Done? ==> ended
      ensures r.Fail? ==> !ended && phase == Abandoning && live != [] && r in outs
      ensures r.Died? ==> env.crashes
    {
      hide DurableOk, AllGiven, Ended, Tally, LiveRecord.Valid, FirstFailure, Owned, Agreed, AllViewed, ReprOf;
      InRepr(live);
      AgreedAreViewed(live, was);
      if ended {
        NothingIsGiven(live, was, env);
        return Done(()), [];
      }
      ghost var all, held := live, locks;
      OwnedIsMatched(live, locks);
      r, live, locks, outs := EndAll(env, live, locks, false, was);
      DurableEverywhere(all, held);
      if r.Died? {
        return;
      }
      if r.Done? {
        ended := true;
      } else {
        phase := Abandoning;
      }
      GivenIsOwned(all, was, false, env, outs, live, locks, r);
      ReprShrinks(live, all);
      FreedAfter(all, held, locks);
    }

    /** Moves the lease to `plan`. `wanted` are the resources that the plan
        resolves to; they must be the ones the lease owns. */
    method Update(env: Env, plan: Plan, wanted: seq<Resource>, ghost was: seq<View>) returns (r: Outcome<()>, ghost priors: seq<Record>)
      requires Valid() && AllViewed(live, was)
      modifies Repr()
      ensures live == old(live) && locks == old(locks) && phase == old(phase) && ended == old(ended) && Repr() == old(Repr())
      ensures forall x :: x in locks ==> DurableOk(x.native, x.files)
      ensures !r.Died? ==> Valid() && OneDesire(live, was, plan)
      ensures ended ==> r == Fail(LeaseNotActive)
      ensures !ended && (phase != Active || exists l :: l in live && !l.registered) ==> r == Fail(LeaseEnding)
      ensures r.Done? ==> AllUpdatedTo(live, was, priors, plan)
      // an active lease can be updated if the plan fits and nothing stands in the way
      ensures old(MayUpdate(this, plan, wanted, env)) ==> !r.Fail?
      // a plan for other resources is refused, and nothing is done
      ensures !Fits(wanted, live) ==> !r.Done? && |was| == |live| && Unmoved(live, was, old(FilesIn(live)))
      ensures !ended && phase == Active && old(AllRegistered(live)) && !env.externals && !env.failures && AllThere(was) && !Fits(wanted, live) ==>
                r == Fail(NeedsRebind) || r.Died?
      ensures r.Died? ==> env.crashes
    {
      hide DurableOk, LiveRecord.Valid, Usable, Matched, Apart, UpdatedTo, AllViewed, Agreed, AlreadyShown;
      hide Fits, AllAsApplied, AllThere, Unmoved;
      priors := [];
      StartsUnmoved(live, was);
      ViewsAgree(live, was);
      OwnedIsUsable(live, locks);
      DesiresAreViewed(live, was);
      AgreedAreViewed(live, was);
      DurableEverywhere(live, locks);
      if ended {
        r := Fail(LeaseNotActive);
        return;
      }
      if phase != Active || exists l :: l in live && !l.registered {
        r := Fail(LeaseEnding);
        return;
      }
      r, priors := MoveTo(env, live, plan, wanted, was);
      DurableEverywhere(live, locks);
      if !r.Died? {
        UpdatedIsOwned(live, locks, was, plan);
      }
    }

    /** The lease goes out of scope: restore what is still owned, or finish
        abandoning, then release every lock whatever happened. */
    method Drop(env: Env, ghost was: seq<View>) returns (r: Outcome<()>, ghost outs: seq<Outcome<()>>)
      requires Valid() && AllViewed(live, was)
      modifies Repr()
      ensures forall x :: x in old(locks) ==> DurableOk(x.native, x.files)
      ensures !r.Died? ==> Freed(old(locks), locks)
      ensures !r.Fail? && (r.Died? ==> env.crashes)
      ensures r.Done? ==> Repr() <= old(Repr())
      ensures r.Done? ==> Valid() && ended && forall i :: 0 <= i < |old(live)| ==> !old(live)[i].res.locked
      ensures r.Done? ==> AllGivenUp(old(live), was, phase != Abandoning, env, outs)
      ensures phase == old(phase)
    {
      hide DurableOk, GivenUp, Owned, AllViewed;
      DesiresAreViewed(live, was);
      ghost var all, held := live, locks;
      OwnedIsMatched(live, locks);
      r, outs := DropAll(env, live, locks, phase != Abandoning, was);
      DurableEverywhere(all, held);
      if r.Done? {
        live, locks, ended := [], [], true;
        NothingIsOwned();
        FreedAfter(all, held, []);
      }
    }

    /** Other writers change the resource at `i`. */
    method Disturb(env: Env, i: nat)
      requires Valid() && i < |live|
      modifies live[i].res`native
      ensures Valid() && DurableOk(live[i].res.native, live[i].res.files)
    {
      hide DurableOk, LiveOk, Matched, ForeignStrict;
      ghost var l, a := live[i], live[i].res.native;
      assert l.Valid();
      live[i].res.Interfere(env);
      ValidUnderForeign(a, l.res.native, l.res.files, l.record, l.state, l.registered);
    }

    /** Somebody reads the journal record of the resource at `i`. */
    method Note(i: nat, record: Record)
      requires Valid() && i < |live|
      requires record.lease in live[i].res.files && live[i].res.files[record.lease] == record
      modifies live[i].res`native
      ensures Valid() && DurableOk(live[i].res.native, live[i].res.files)
      ensures live[i].res.native == Noted(old(live[i].res.native), record)
    {
      hide DurableOk, LiveOk, Matched;
      ghost var l, n := live[i], live[i].res.native;
      assert l.Valid();
      live[i].res.native := Noted(live[i].res.native, record);
      ValidUnderNote(n, l.res.files, l.record, l.state, l.registered, record);
    }

    /** One reconciliation of the record at `i`. */
    method ReconcileEntry<K>(env: Env, i: nat, reconciler: Schedule.Reconciler<K>, k: K, now: nat) returns (r: Outcome<Verdict>)
      requires Valid() && i < |live|
      modifies live[i], live[i].res`native, live[i].res`files, reconciler
      ensures DurableOk(live[i].res.native, live[i].res.files)
      ensures !r.Died? ==> Valid()
      ensures old(live[i].registered) ==>
                && Pass(old(live[i].res.native), old(live[i].record), old(live[i].state), live[i].res.native, live[i].record, live[i].state, env, r)
                && (r != Done(NoActiveLease) ==>
                      Gated(old(live[i].res.native), old(live[i].record), old(live[i].state), live[i].res.native, live[i].record, live[i].state, env, r, k, now, old(reconciler.breaker), reconciler.breaker))
      ensures r.Died? ==> env.crashes
    {
      hide DurableOk, LiveRecord.Valid, Matched, Pass, Gated;
      r := ReconcileResource(env, live[i], reconciler, k, now);
    }
  }

  /** What dropping the lease did to one resource, before its lock was freed. */
  ghost predicate GivenUp(live: LiveRecord, was: View, restoring: bool, env: Env, out: Outcome<()>)
    reads live.res`native, live.res`files
  {
    && (out.Done? ==> live.res.files == map[])
    && (restoring ==> Restoration(was.native, was.record, was.state, live.res.native, env, out))
    && (!restoring ==> live.res.native == was.native.(disclaimed := true))
  }

  ghost predicate AllGivenUp(live: seq<LiveRecord>, was: seq<View>, restoring: bool, env: Env, outs: seq<Outcome<()>>)
    reads ResourcesOf(live)
  {
    |was| == |live| == |outs| && forall i :: 0 <= i < |live| ==> assert live[i].res == ResourcesOf(live)[i]; GivenUp(live[i], was[i], restoring, env, outs[i])
  }

  lemma GivenAreGivenUp(live: seq<LiveRecord>, was: seq<View>, restoring: bool, env: Env, outs: seq<Outcome<()>>)
    requires |outs| == |live| == |was|
    requires AllGiven(live, was, restoring, env, outs)
    ensures forall i :: 0 <= i < |live| ==> GivenUp(live[i], was[i], restoring, env, outs[i])
    ensures forall i :: 0 <= i < |live| ==> outs[i].Done? || outs[i].Fail?
    ensures forall i :: 0 <= i < |live| && outs[i].Done? ==> !live[i].res.locked
  {
    hide Restoration, DurableOk, LiveRecord.Valid;
    forall i | 0 <= i < |live|
      ensures GivenUp(live[i], was[i], restoring, env, outs[i])
      ensures outs[i].Done? || outs[i].Fail?
      ensures outs[i].Done? ==> !live[i].res.locked
    {
      assert Given(live[i], was[i], restoring, env, outs[i]);
    }
  }

  lemma OwnedIsMatched(live: seq<LiveRecord>, locks: seq<Resource>)
    requires Owned(live, locks)
    ensures Matched(locks, live) && Apart(live)
    ensures forall l :: l in live ==> l.res in locks
    ensures forall x :: x in ResourcesOf(live) ==> x in locks
  {
    hide LiveRecord.Valid;
    forall x | x in ResourcesOf(live) ensures x in locks {
      var i :| 0 <= i < |live| && ResourcesOf(live)[i] == x;
      assert live[i] in live;
    }
  }

  lemma NothingIsOwned()
    ensures Owned([], [])
  {
  }

  /** Ends what can be ended, and releases every lock. */
  method DropAll(env: Env, live: seq<LiveRecord>, locks: seq<Resource>, restoring: bool, ghost was: seq<View>)
    returns (r: Outcome<()>, ghost outs: seq<Outcome<()>>)
    requires Owned(live, locks) && AllViewed(live, was) && |was| == |live|
    modifies live, ResourcesOf(live)
    ensures forall i :: 0 <= i < |live| ==> DurableOk(live[i].res.native, live[i].res.files)
    ensures !r.Fail? && (r.Died? ==> env.crashes)
    ensures r.Done? ==> forall i :: 0 <= i < |live| ==> !live[i].res.locked
    ensures r.Done? ==> |outs| == |was| && forall i :: 0 <= i < |was| ==> GivenUp(live[i], was[i], restoring, env, outs[i])
  {
    hide DurableOk, AllGiven, GivenUp, LiveRecord.Valid, FirstFailure, Owned, AllViewed, Tally;
    var kept, left;
    r, kept, left, outs := EndAll(env, live, locks, restoring, was);
    if r.Died? {
      return;
    }
    GivenAreGivenUp(live, was, restoring, env, outs);
    TallyLocks(live, outs, kept, left);
    for k := 0 to |left|
      invariant forall i :: 0 <= i < k ==> !left[i].locked
      invariant forall i :: 0 <= i < |live| && outs[i].Done? ==> !live[i].res.locked
      invariant forall i :: 0 <= i < |live| ==> DurableOk(live[i].res.native, live[i].res.files)
      invariant forall i :: 0 <= i < |live| ==> GivenUp(live[i], was[i], restoring, env, outs[i])
    {
      assert left[k] in ResourcesOf(live);
      left[k].locked := false;
    }
    r := Done(());
  }

  /** The records carry the plan, or whatever each of them carried before. */
  ghost predicate OneDesire(live: seq<LiveRecord>, was: seq<View>, plan: Plan)
    requires |was| == |live|
    reads live
  {
    || (forall i :: 0 <= i < |live| ==> live[i].record.desired == plan)
    || (forall i :: 0 <= i < |live| ==> live[i].record.desired == was[i].record.desired)
  }

  /** The plan resolves to the leased resources, in whatever order. */
  predicate Fits(wanted: seq<Resource>, live: seq<LiveRecord>) {
    multiset(wanted) == multiset(ResourcesOf(live))
  }

  /** Every resource shows the overlay that its record names. */
  predicate AllAsApplied(was: seq<View>) {
    forall i :: 0 <= i < |was| ==> was[i].state == Committed && AsApplied(was[i].native, was[i].record)
  }

  /** Every resource is the incarnation that was leased. */
  predicate AllThere(was: seq<View>) {
    forall i :: 0 <= i < |was| ==> StatusOf(was[i].native, was[i].record.identity) == Same
  }

  /** Nothing but other writers touched the resources. */
  ghost predicate Unmoved(live: seq<LiveRecord>, was: seq<View>, files: seq<Files>)
    requires |was| == |live| == |files|
    reads live, ResourcesOf(live)
  {
    forall i :: 0 <= i < |live| ==>
      && live[i].record == was[i].record
      && live[i].state == was[i].state
      && live[i].res.files == files[i]
      && Foreign(was[i].native, live[i].res.native)
  }

  ghost function FilesIn(live: seq<LiveRecord>): (r: seq<Files>)
    reads ResourcesOf(live)
    ensures |r| == |live| && forall i :: 0 <= i < |live| ==> r[i] == live[i].res.files
  {
    seq(|live|, i requires 0 <= i < |live| reads ResourcesOf(live) => assert live[i].res == ResourcesOf(live)[i]; live[i].res.files)
  }

  /** The update of an active lease. */
  method MoveTo(env: Env, live: seq<LiveRecord>, plan: Plan, wanted: seq<Resource>, ghost was: seq<View>) returns (r: Outcome<()>, ghost priors: seq<Record>)
    requires Apart(live) && AllViewed(live, was)
    requires forall i :: 0 <= i < |live| ==> Usable(live[i])
    modifies live`record, live`state, ResourcesOf(live)`native, ResourcesOf(live)`files
    ensures forall i :: 0 <= i < |live| ==> DurableOk(live[i].res.native, live[i].res.files)
    ensures !r.Died? ==> OneDesire(live, was, plan) && forall i :: 0 <= i < |live| ==> Usable(live[i])
    ensures r.Done? ==> |priors| == |live| && forall i :: 0 <= i < |live| ==> UpdatedTo(live[i], was[i], priors[i], plan)
    ensures r.Done? ==> forall i :: 0 <= i < |live| ==>
              live[i].record.desired == if AlreadyShown(priors, plan) then was[i].record.desired else plan
    // it succeeds if the plan fits and nothing stands in the way
    ensures Calm(env) && AllAsApplied(was) && Fits(wanted, live) ==> !r.Fail?
    // a plan for other resources is refused, and nothing is done
    ensures !Fits(wanted, live) ==> !r.Done? && Unmoved(live, was, old(FilesIn(live)))
    ensures !Fits(wanted, live) && !env.externals && !env.failures && AllThere(was) ==> r == Fail(NeedsRebind) || r.Died?
    ensures !env.externals && !env.failures && !AllThere(was) ==> r in {Fail(ResourceGone), Fail(ResourceIdentity), Died}
    ensures r.Died? ==> env.crashes
  {
    hide DurableOk, Usable, AllOrNothing, Matched, Apart, Steady, StartedFrom, Untaken, UpdatedTo, AllViewed, OneIntent, AlreadyShown;
    hide Fits, AllAsApplied, AllThere, Unmoved, Foreign, AsApplied;
    priors := [];
    DesiresAreViewed(live, was);
    ghost var files := FilesIn(live);
    r := CheckStatuses(env, live, was);
    NothingMoved(live, was, files);
    AppliedIsThere(was);
    if !r.Done? {
      return;
    }
    if !Fits(wanted, live) {
      r := Fail(NeedsRebind);
      return;
    }
    ghost var now := ViewsOf(live);
    AppliedStays(live, was, now, env);
    AppliedIsThere(was);
    ghost var stage, starts;
    DesiresAreViewed(live, now);
    SinceThen(live, was, now);
    r, stage, priors, starts := TransactUpdate(env, live, plan, now);
    if !r.Died? {
      IntentIsOne(live, now, plan, stage);
    }
    if r.Done? {
      AllUpdated(live, was, now, plan, env, stage, priors, starts);
    }
  }

  /** Every resource was updated. What was shown already is not stored. */
  ghost predicate AllUpdatedTo(live: seq<LiveRecord>, was: seq<View>, priors: seq<Record>, plan: Plan)
    reads live, ResourcesOf(live)
  {
    && |priors| == |was| == |live|
    && forall i :: 0 <= i < |live| ==>
         && (assert live[i].res == ResourcesOf(live)[i]; UpdatedTo(live[i], was[i], priors[i], plan))
         && live[i].record.desired == if AlreadyShown(priors, plan) then was[i].record.desired else plan
  }

  /** Nothing stands in the way of an update. */
  ghost predicate MayUpdate(lease: Lease, plan: Plan, wanted: seq<Resource>, env: Env)
    reads lease, lease.live, ResourcesOf(lease.live)
  {
    && !lease.ended && lease.phase == Active && AllRegistered(lease.live)
    && Calm(env) && Fits(wanted, lease.live)
    && AllAsApplied(ViewsOf(lease.live))
  }

  lemma ViewsAgree(live: seq<LiveRecord>, was: seq<View>)
    requires AllViewed(live, was)
    ensures was == ViewsOf(live)
  {
  }

  ghost predicate AllRegistered(live: seq<LiveRecord>)
    reads live
  {
    forall l :: l in live ==> l.registered
  }

  lemma StartsUnmoved(live: seq<LiveRecord>, was: seq<View>)
    requires AllViewed(live, was)
    ensures |was| == |live| && Unmoved(live, was, FilesIn(live))
  {
  }

  lemma NothingMoved(live: seq<LiveRecord>, was: seq<View>, files: seq<Files>)
    requires |was| == |live| == |files|
    requires forall i :: 0 <= i < |live| ==> Since(was[i], ViewOf(live[i])) && live[i].res.files == files[i]
    ensures Unmoved(live, was, files)
  {
    hide Foreign;
  }

  lemma AppliedIsThere(was: seq<View>)
    ensures AllAsApplied(was) ==> AllThere(was)
  {
  }

  lemma AppliedStays(live: seq<LiveRecord>, was: seq<View>, now: seq<View>, env: Env)
    requires |was| == |live| && AllViewed(live, now)
    requires forall i :: 0 <= i < |live| ==> Since(was[i], ViewOf(live[i])) && (!env.externals ==> live[i].res.native == was[i].native)
    ensures !env.externals && AllAsApplied(was) ==> forall i :: 0 <= i < |now| ==> now[i].state == Committed && AsApplied(now[i].native, now[i].record)
  {
    hide Foreign;
  }

  lemma UpdatedIsOwned(live: seq<LiveRecord>, locks: seq<Resource>, was: seq<View>, plan: Plan)
    requires Apart(live) && Matched(locks, live) && |was| == |live|
    requires forall i :: 0 <= i < |live| ==> Usable(live[i]) && live[i].res.locked
    requires AgreedViews(was) && OneDesire(live, was, plan)
    ensures Owned(live, locks) && Agreed(live)
  {
    hide LiveRecord.Valid, Matched;
  }

  lemma OwnedIsUsable(live: seq<LiveRecord>, locks: seq<Resource>)
    requires Owned(live, locks)
    ensures forall i :: 0 <= i < |live| ==> DurableOk(live[i].res.native, live[i].res.files)
    ensures forall i :: 0 <= i < |live| && live[i].registered ==> Usable(live[i])
  {
    hide DurableOk, LiveOk;
  }

  lemma DesiresAreViewed(live: seq<LiveRecord>, was: seq<View>)
    requires AllViewed(live, was)
    ensures |was| == |live| && forall i :: 0 <= i < |live| ==> was[i].record.desired == live[i].record.desired
  {
  }

  lemma IntentIsOne(live: seq<LiveRecord>, was: seq<View>, plan: Plan, stage: Stage)
    requires |was| == |live| && OneIntent(live, was, plan, stage)
    ensures stage == MovedOver ==> forall i :: 0 <= i < |live| ==> live[i].record.desired == plan
    ensures stage != MovedOver ==> forall i :: 0 <= i < |live| ==> live[i].record.desired == was[i].record.desired
  {
  }

  /** The record is the same, and no foreign write was forgotten. */
  predicate Since(was: View, now: View) {
    now.record == was.record && now.state == was.state && was.native.foreign <= now.native.foreign && Foreign(was.native, now.native)
  }

  lemma SinceThen(live: seq<LiveRecord>, was: seq<View>, now: seq<View>)
    requires |was| == |live| && AllViewed(live, now)
    requires forall i :: 0 <= i < |live| ==> Since(was[i], ViewOf(live[i]))
    ensures |now| == |was| && forall i :: 0 <= i < |was| ==> Since(was[i], now[i])
  {
  }

  /** The lease carries a verified overlay that satisfies the plan. Unless someone
      else wrote since `was`, the resource shows it and the lease owns it. */
  ghost predicate UpdatedTo(live: LiveRecord, was: View, prior: Record, plan: Plan)
    reads live, live.res
  {
    && live.state == Committed
    && live.record.applied.Some?
    && StateMatches(live.record.applied.value.state, plan)
    && (live.res.native.foreign == was.native.foreign ==>
          OwnsIfAny(live.res.native, live.record.applied) && StateMatches(Last(live.res.native).state, plan))
    && SameClaim(prior, was.record)
    && IsApplied(prior)
    && (was.state == Committed ==> prior == was.record)
  }

  lemma CarriedIsUpdated(live: LiveRecord, was: View, now: View, plan: Plan, prior: Record, start: Native)
    requires Since(was, now) && StartedFrom(now, start, prior)
    requires Carried(start, live, Planned(prior, plan)) && live.state == Committed
    ensures UpdatedTo(live, was, prior, plan)
  {
    hide DurableOk;
  }

  lemma SteadyIsUpdated(live: LiveRecord, was: View, now: View, plan: Plan, prior: Record, start: Native)
    requires Since(was, now) && StartedFrom(now, start, prior)
    requires Steady(start, live, prior) && prior.applied.Some? && StateMatches(prior.applied.value.state, plan)
    ensures UpdatedTo(live, was, prior, plan)
  {
    hide DurableOk;
  }

  lemma AllUpdated(live: seq<LiveRecord>, was: seq<View>, now: seq<View>, plan: Plan, env: Env, stage: Stage, priors: seq<Record>, starts: seq<Native>)
    requires |was| == |live| == |now| == |priors| == |starts| && stage in {Unneeded, MovedOver}
    requires forall i :: 0 <= i < |live| ==> Since(was[i], now[i]) && StartedFrom(now[i], starts[i], priors[i]) && live[i].state == Committed
    requires stage == Unneeded ==> forall i :: 0 <= i < |live| ==>
               Steady(starts[i], live[i], priors[i]) && priors[i].applied.Some? && StateMatches(priors[i].applied.value.state, plan)
    requires stage == MovedOver ==> AllOrNothing(live, priors, plan, starts, env, stage)
    ensures forall i :: 0 <= i < |live| ==> UpdatedTo(live[i], was[i], priors[i], plan)
  {
    hide Since, StartedFrom, Steady, Carried, UpdatedTo;
    forall i | 0 <= i < |live| ensures UpdatedTo(live[i], was[i], priors[i], plan) {
      if stage == Unneeded {
        SteadyIsUpdated(live[i], was[i], now[i], plan, priors[i], starts[i]);
      } else {
        CarriedIsUpdated(live[i], was[i], now[i], plan, priors[i], starts[i]);
      }
    }
  }

  /** Every resource is still the native object that was leased. */
  method CheckStatuses(env: Env, live: seq<LiveRecord>, ghost was: seq<View>) returns (r: Outcome<()>)
    requires Apart(live) && AllViewed(live, was) && forall i :: 0 <= i < |live| ==> Usable(live[i])
    modifies ResourcesOf(live)`native
    ensures forall i :: 0 <= i < |live| ==> Usable(live[i]) && DurableOk(live[i].res.native, live[i].res.files)
    ensures |was| == |live| && forall i :: 0 <= i < |live| ==> Since(was[i], ViewOf(live[i]))
    ensures !env.externals ==> forall i :: 0 <= i < |live| ==> live[i].res.native == was[i].native
    ensures !env.externals && !env.failures ==> if AllThere(was) then !r.Fail? else r in {Fail(ResourceGone), Fail(ResourceIdentity), Died}
    ensures r.Died? ==> env.crashes
  {
    hide DurableOk, Usable, Foreign, StatusOf, Apart, Waited, Since;
    StartsSince(live, was, env);
    for k := 0 to |live|
      invariant forall i :: 0 <= i < |live| ==> Usable(live[i])
      invariant forall i :: 0 <= i < |live| ==> Waited(was[i], ViewOf(live[i]), env)
      invariant !env.externals && !env.failures ==> forall i :: 0 <= i < k ==> StatusOf(was[i].native, was[i].record.identity) == Same
    {
      OthersApart(live, k);
      ghost var b := ViewOf(live[k]);
      r := CheckStatus(env, live[k]);
      WaitedOn(was[k], b, ViewOf(live[k]), env);
      if !r.Done? {
        UsableIsDurable(live);
        AllWaited(live, was, env);
        return;
      }
    }
    UsableIsDurable(live);
    AllWaited(live, was, env);
    r := Done(());
  }

  /** Nothing happened but steps of other writers, if there are any. */
  predicate Waited(was: View, now: View, env: Env) {
    Since(was, now) && (!env.externals ==> now.native == was.native)
  }

  lemma StartsSince(live: seq<LiveRecord>, was: seq<View>, env: Env)
    requires AllViewed(live, was)
    ensures |was| == |live| && forall i :: 0 <= i < |live| ==> Waited(was[i], ViewOf(live[i]), env)
  {
  }

  lemma WaitedOn(a: View, b: View, c: View, env: Env)
    requires Waited(a, b, env) && c == b.(native := c.native)
    requires Foreign(b.native, c.native) && (!env.externals ==> c.native == b.native)
    ensures Waited(a, c, env)
    ensures !env.externals ==> c.native == a.native && c.record == a.record
  {
    ForeignTransitive(a.native, b.native, c.native);
    ForeignIsCounted(b.native, c.native);
  }

  lemma AllWaited(live: seq<LiveRecord>, was: seq<View>, env: Env)
    requires |was| == |live| && forall i :: 0 <= i < |live| ==> Waited(was[i], ViewOf(live[i]), env)
    ensures forall i :: 0 <= i < |live| ==> Since(was[i], ViewOf(live[i]))
    ensures !env.externals ==> forall i :: 0 <= i < |live| ==> live[i].res.native == was[i].native
  {
    hide Since;
  }

  method CheckStatus(env: Env, live: LiveRecord) returns (r: Outcome<()>)
    requires Usable(live)
    modifies live.res`native
    ensures Usable(live) && DurableOk(live.res.native, live.res.files)
    ensures old(live.res.native.foreign) <= live.res.native.foreign && Foreign(old(live.res.native), live.res.native)
    ensures !env.externals ==> live.res.native == old(live.res.native)
    ensures !env.failures && !r.Died? ==> r == match StatusOf(live.res.native, live.record.identity)
              case Same => Done(())
              case Gone => Fail(ResourceGone)
              case _ => Fail(ResourceIdentity)
    ensures r.Died? ==> env.crashes
  {
    hide DurableOk, LiveOk, Foreign;
    ghost var a := live.res.native;
    var status := live.res.Status(env, live.record.identity);
    ValidUnderForeign(a, live.res.native, live.res.files, live.record, live.state, true);
    var s :- status;
    r := match s
      case Same => Done(())
      case Gone => Fail(ResourceGone)
      case _ => Fail(ResourceIdentity);
  }

  ghost function ViewsOf(live: seq<LiveRecord>): (r: seq<View>)
    reads live, ResourcesOf(live)
    ensures AllViewed(live, r)
  {
    seq(|live|, i requires 0 <= i < |live| reads live, ResourcesOf(live) => assert live[i].res == ResourcesOf(live)[i]; ViewOf(live[i]))
  }

  lemma GivenIsOwned(live: seq<LiveRecord>, was: seq<View>, restoring: bool, env: Env, outs: seq<Outcome<()>>, kept: seq<LiveRecord>, locks: seq<Resource>, r: Outcome<()>)
    requires |outs| == |live| == |was| && Tally(live, outs, kept, locks) && r == FirstFailure(outs) && !r.Died?
    requires AllGiven(live, was, restoring, env, outs)
    requires AgreedViews(was)
    ensures Owned(kept, locks) && Agreed(kept)
    ensures forall l :: l in kept ==> l in live && !l.registered
    ensures r.Done? ==> kept == [] && locks == []
    ensures r.Fail? ==> kept != [] && r in outs
    ensures forall i :: 0 <= i < |live| && live[i].res.locked ==> live[i].res in locks
    ensures forall x :: x in locks ==> x in ResourcesOf(live)
  {
    hide Restoration, Tally, DurableOk, LiveRecord.Valid;
    TallyLocks(live, outs, kept, locks);
    forall i | 0 <= i < |live|
      ensures Ended(live[i], was[i], outs[i]) && (live[i].res.locked ==> live[i].res in locks)
    {
      assert Given(live[i], was[i], restoring, env, outs[i]);
    }
    TallyIsOwned(live, was, outs, kept, locks);
    TallyIsEmpty(live, outs, kept, locks);
  }
}
