/** The steps that move a live record: publication, preparation, commitment,
    retained compensation, resolution and restoration. */
module Lifecycle {
  import opened Dns
  import opened World
  import opened Durable
  import opened Backend
  import opened Engine
  import opened Live

  /** The journal after an attempt to publish `r`. */
  predicate Published(before: Files, after: Files, r: Record) {
    after == before || after == before[r.lease := r]
  }

  /** The state that publishing `candidate` leads to. */
  function NextState(candidate: Record): LiveState {
    if candidate.phase.Applied? then Committed else Unmutated
  }

  /** Makes `candidate` the record of the lease, in the journal and in memory; if
      the journal may lag behind, the record is in repair. */
  method PersistLive(env: Env, live: LiveRecord, candidate: Record) returns (r: Outcome<()>)
    requires DurableOk(live.res.native, live.res.files)
    requires RecordOk(live.res.native, candidate) && Covers(live.res.native, candidate)
    requires forall l :: l in live.res.files ==> l == candidate.lease
    modifies live`record, live`state, live.res`files
    ensures DurableOk(live.res.native, live.res.files)
    ensures Published(old(live.res.files), live.res.files, candidate)
    ensures r.Done? ==> live.record == candidate && live.state == NextState(candidate) && live.res.files == old(live.res.files)[candidate.lease := candidate]
    ensures r.Fail? ==> env.failures && live.record == candidate && live.state == Repair(NextState(candidate))
    ensures r.Died? ==> env.crashes
  {
    DurableUnderPublish(live.res.native, live.res.files, candidate);
    r := live.res.JournalWrite(env, candidate);
    match r {
      case Done(_) =>
        live.record := candidate;
        live.state := NextState(candidate);
      case Fail(_) =>
        live.record := candidate;
        live.state := Repair(NextState(candidate));
      case Died =>
    }
  }

  /** Writes `candidate` ahead of a mutation. If that fails, the lease is back at
      its old record, or in repair of it when the journal may hold either. */
  method PrepareLive(env: Env, live: LiveRecord, candidate: Record) returns (r: Outcome<()>)
    requires live.Valid() && !live.state.Repair? && !live.state.Verified?
    requires candidate.lease == live.record.lease
    requires RecordOk(live.res.native, candidate) && Covers(live.res.native, candidate)
    modifies live`record, live`state, live.res`files
    ensures DurableOk(live.res.native, live.res.files)
    ensures r.Done? ==> live.record == candidate && live.state == Unmutated && live.res.files == old(live.res.files)[candidate.lease := candidate]
    ensures r.Fail? ==> env.failures && live.Valid() && live.record == old(live.record) && live.state in {old(live.state), Repair(old(live.state))}
    ensures r.Died? ==> env.crashes
  {
    var previous, state := live.record, live.state;
    DurableUnderPublish(live.res.native, live.res.files, candidate);
    r := live.res.JournalWrite(env, candidate);
    if r.Fail? {
      DurableUnderPublish(live.res.native, live.res.files, previous);
      var undo := live.res.JournalWrite(env, previous);
      if undo.Died? {
        return Died;
      }
      if undo.Fail? {
        live.state := Repair(state);
      }
      return;
    }
    if r.Done? {
      live.record := candidate;
      live.state := Unmutated;
    }
  }

  /** Publishes the newest residue evidence conservatively, and remembers where
      to resume. */
  method RetainCompensation(env: Env, live: LiveRecord, pending: Pending, resume: Record) returns (r: Outcome<()>)
    requires DurableOk(live.res.native, live.res.files)
    requires RecordOk(live.res.native, live.record) && Covers(live.res.native, live.record)
    requires PendingOk(live.res.native, pending, live.record.before.state)
    requires forall l :: l in live.res.files ==> l == live.record.lease
    modifies live`record, live`state, live.res`files
    ensures DurableOk(live.res.native, live.res.files)
    ensures live.record == Retained(old(live.record), pending, resume)
    ensures Published(old(live.res.files), live.res.files, live.record)
    ensures r.Done? ==> live.state == Compensating(pending, resume) && live.res.files == old(live.res.files)[live.record.lease := live.record]
    ensures r.Fail? ==> env.failures && live.state == Repair(Compensating(pending, resume))
    ensures r.Died? ==> env.crashes
  {
    live.record := Retained(live.record, pending, resume);
    live.state := Compensating(pending, resume);
    DurableUnderPublish(live.res.native, live.res.files, live.record);
    r := live.res.JournalWrite(env, live.record);
    if r.Fail? {
      live.state := Repair(live.state);
    }
  }

  function Retained(r: Record, pending: Pending, resume: Record): Record {
    r.(phase := Phase.Prepared, applied := pending.evidence, desired := resume.desired)
  }

  /** The record that a finished compensation resumes with. */
  function Resumed(resume: Record, identity: Option<Snapshot>): Record {
    if resume.phase.Prepared? then resume
    else if identity.None? then resume.(phase := Phase.Prepared, applied := None)
    else resume.(applied := identity)
  }

  /** A rollback that would write needs a journal file, unless the file is
      about to be repaired first. */
  predicate MayResolve(n: Native, files: Files, r: Record, s: LiveState) {
    s.Compensating? ==> MayUndo(n, files, s.pending, r.lease, r.before.state, r.identity)
  }

  /** The parts of a record that identify its transaction. */
  predicate SameClaim(a: Record, b: Record) {
    a == b.(phase := a.phase, applied := a.applied)
  }

  lemma ResolvedOk(n: Native, files: Files, f: Files, r: Record, p: Pending, resume: Record, identity: Option<Snapshot>, registered: bool)
    requires DurableOk(n, files) && LiveOk(n, files, r, Compensating(p, resume), registered)
    requires Reached(n, p.target, identity, r.before.state)
    requires Published(files, f, Resumed(resume, identity))
    ensures var c := Resumed(resume, identity);
            && RecordOk(n, c) && Covers(n, c) && SameClaim(c, r)
            && (c.lease in f && f[c.lease] == c ==> LiveOk(n, f, c, NextState(c), registered))
            && LiveOk(n, f, c, Repair(NextState(c)), registered)
  {
    var c := Resumed(resume, identity);
    if n.present && Last(n).writer.External? {
      assert StampOk(n, Generation(n));
      assert !Overlay(n);
    }
  }

  /** The identity that survives is the one that owned the state. */
  predicate Regained(n: Native, r: Record, s: LiveState) {
    || (s == Committed && r.applied.Some? && Owns(n, r.applied.value))
    || (s == Unmutated && Last(n).state == r.before.state)
  }

  /** Finalizing a verified mutation, even if the publication fails. */
  lemma FinalizedOk(n: Native, files: Files, r: Record, m: VerifiedMutation, registered: bool)
    requires DurableOk(n, files) && LiveOk(n, files, r, LiveState.Verified(m), registered)
    ensures var c := Finalized(r, m);
            && RecordOk(n, c) && Covers(n, c) && SameClaim(c, r)
            && LiveOk(n, files[r.lease := c], c, Committed, registered)
            && LiveOk(n, files[r.lease := c], r, LiveState.Verified(m), registered)
  {
  }

  /** A restoration that is not disturbed can succeed. */
  predicate Restorable(n: Native, r: Record, s: LiveState) {
    StatusOf(n, r.identity) == Same && (OwnsClaim(n, r, s) || Last(n).state == r.before.state)
  }

  /** What an attempt that failed leaves can still be restored, if nobody else
      wrote and every write of ours was named. */
  predicate StillRestorable(a: Native, ra: Record, sa: LiveState, b: Native, rb: Record, sb: LiveState, env: Env) {
    Undisturbed(env, a, b) && Restorable(a, ra, sa) ==> Restorable(b, rb, sb)
  }

  lemma StillAtOnce(n: Native, r: Record, s: LiveState, env: Env)
    ensures StillRestorable(n, r, s, n, r, s, env) && Later(n, n)
  {
  }

  lemma StillAfterForeign(a: Native, ra: Record, sa: LiveState, b: Native, r: Record, s: LiveState, c: Native, env: Env)
    requires StillRestorable(a, ra, sa, b, r, s, env) && Later(a, b) && Foreign(b, c)
    ensures StillRestorable(a, ra, sa, c, r, s, env)
  {
    ForeignIsCounted(b, c);
  }

  lemma StillTransitive(a: Native, ra: Record, sa: LiveState, b: Native, rb: Record, sb: LiveState, c: Native, rc: Record, sc: LiveState, env: Env)
    requires StillRestorable(a, ra, sa, b, rb, sb, env) && StillRestorable(b, rb, sb, c, rc, sc, env)
    requires Later(a, b) && Later(b, c)
    ensures StillRestorable(a, ra, sa, c, rc, sc, env)
  {
  }

  /** What resolving an open outcome did to the resource. A resource is only
      written under a claim, and a claim is never gained without a write. */
  predicate Resolution(a: Native, ra: Record, sa: LiveState, b: Native, rb: Record, sb: LiveState, env: Env, current: Option<Snapshot>, out: Outcome<()>) {
    && Later(a, b)
    && (!env.externals ==> b.foreign == a.foreign)
    && (!Core(sa).Compensating? ==> Foreign(a, b))
    && (Foreign(a, b) || OwnsClaim(a, ra, sa))
    && (out.Died? ==> env.crashes)
    && (Core(sa) in {Committed, Unmutated} && !out.Died? ==> b == a && rb == ra)
    && (out.Done? ==>
          && sb in {Committed, Unmutated}
          && (Foreign(a, b) && OwnsClaim(b, rb, sb) ==> OwnsClaim(a, ra, sa)))
    && (StatusOf(a, ra.identity) == Same && OwnsClaim(a, ra, sa) && current in {None, Some(Current(a))} ==>
          && (Quiet(env, a, b) ==> !out.Fail?)
          && (Undisturbed(env, a, b) && out.Done? ==> Regained(b, rb, sb))
          && (Undisturbed(env, a, b) && out.Fail? ==> Restorable(b, rb, sb)))
  }

  /** Whether the verified mutation still names the present state. */
  method StillNamed(env: Env, live: LiveRecord, current: Option<Snapshot>, proof: Snapshot) returns (r: Outcome<()>)
    requires live.Valid()
    modifies live.res`native
    ensures live.Valid() && Foreign(old(live.res.native), live.res.native)
    ensures !env.externals ==> live.res.native == old(live.res.native)
    ensures Quiet(env, old(live.res.native), live.res.native) && current in {None, Some(proof)} && StatusOf(old(live.res.native), live.record.identity) == Same
            && Owns(old(live.res.native), proof) ==>
              !r.Fail?
    ensures r.Died? ==> env.crashes
  {
    hide DurableOk, LiveOk, Foreign;
    ghost var a := live.res.native;
    r := NamesPresent(env, live.res, live.record.identity, current, proof);
    ValidUnderForeign(a, live.res.native, live.res.files, live.record, live.state, live.registered);
  }

  /** Whether the resource is the recorded incarnation and shows `proof`. The
      state is read unless the caller has just read it. */
  method NamesPresent(env: Env, res: Resource, identity: nat, current: Option<Snapshot>, proof: Snapshot) returns (r: Outcome<()>)
    modifies res`native
    ensures Foreign(old(res.native), res.native)
    ensures !env.externals ==> res.native == old(res.native)
    ensures Quiet(env, old(res.native), res.native) && current in {None, Some(proof)} && StatusOf(old(res.native), identity) == Same && Owns(old(res.native), proof) ==>
              !r.Fail?
    ensures r.Died? ==> env.crashes
  {
    hide ForeignStrict;
    ghost var a := res.native;
    var now: Snapshot;
    if current.Some? {
      now := current.value;
    } else {
      var reading := res.Readback(env);
      ForeignIsCounted(a, res.native);
      now :- reading;
    }
    ghost var b := res.native;
    var status := res.Status(env, identity);
    ForeignIsCounted(a, b);
    ForeignIsCounted(b, res.native);
    ForeignTransitive(a, b, res.native);
    var s :- status;
    if s != Same || now != proof {
      return Fail(ExternalModification);
    }
    r := Done(());
  }

  /** Finalizes a verified mutation while it still names the present state. */
  method ResolveVerified(env: Env, live: LiveRecord, current: Option<Snapshot>) returns (r: Outcome<()>)
    requires live.Valid() && live.state.Verified?
    modifies live`record, live`state, live.res`native, live.res`files
    ensures DurableOk(live.res.native, live.res.files)
    ensures !r.Died? ==> live.Valid() && SameClaim(live.record, old(live.record))
    ensures Foreign(old(live.res.native), live.res.native)
    ensures r.Done? ==> live.state == Committed && live.record == Finalized(old(live.record), old(live.state).mutation)
    ensures r.Fail? ==> live.state == old(live.state) && live.record == old(live.record)
    ensures !env.externals ==> live.res.native == old(live.res.native)
    ensures Quiet(env, old(live.res.native), live.res.native) && current in {None, Some(old(live.state).mutation.Persist())} && StatusOf(old(live.res.native), old(live.record).identity) == Same
            && OwnsClaim(old(live.res.native), old(live.record), old(live.state)) ==>
              !r.Fail?
    ensures r.Died? ==> env.crashes
  {
    hide DurableOk, LiveOk, Foreign;
    var mutation := live.state.mutation;
    var named :- StillNamed(env, live, current, mutation.Persist());
    var candidate := Finalized(live.record, mutation);
    LiveParts(live.res.native, live.res.files, live.record, live.state, live.registered);
    FinalizedOk(live.res.native, live.res.files, live.record, mutation, live.registered);
    DurableUnderPublish(live.res.native, live.res.files, candidate);
    var written :- live.res.JournalWrite(env, candidate);
    live.record := candidate;
    live.state := Committed;
    r := Done(());
  }

  /** Finishes an outstanding rollback, or publishes its newest evidence. */
  method ResolveCompensation(env: Env, live: LiveRecord) returns (r: Outcome<()>)
    requires DurableOk(live.res.native, live.res.files) && live.state.Compensating?
    requires LiveOk(live.res.native, live.res.files, live.record, live.state, live.registered)
    requires MayUndo(live.res.native, live.res.files, live.state.pending, live.record.lease, live.record.before.state, live.record.identity)
    modifies live`record, live`state, live.res`native, live.res`files
    ensures DurableOk(live.res.native, live.res.files)
    ensures !r.Died? ==> LiveOk(live.res.native, live.res.files, live.record, live.state, live.registered) && SameClaim(live.record, old(live.record))
    ensures Resolution(old(live.res.native), old(live.record), old(live.state), live.res.native, live.record, live.state, env, None, r)
    ensures r.Done? ==> live.state in {Committed, Unmutated}
    ensures r.Died? ==> env.crashes
  {
    hide *;
    var Compensating(pending, resume) := live.state;
    LiveParts(live.res.native, live.res.files, live.record, live.state, live.registered);
    ghost var r0, files := live.record, live.res.files;
    ghost var a := live.res.native;
    IsProper(a, files, pending, r0.lease, r0.before.state, r0.identity);
    var undone, after := Compensate(env, live.res, live.record.identity, pending, live.record.lease, r0.before.state, true);
    ghost var b := live.res.native;
    LiveUnderRollback(a, b, live.res.files, live.record, pending, after, resume, live.registered, env, undone);
    if undone.Done? {
      r := FinishCompensation(env, live, after, resume, undone.value);
      RollbackFinished(a, b, files, r0, pending, after, resume, undone.value, live.record, live.state, env, r);
    } else {
      CompensationDied(a, b, files, r0, pending, after, env, undone);
      r := LeaveCompensating(env, live, after, resume, undone);
      RollbackOpen(a, b, files, r0, pending, after, resume, live.record, live.state, env, undone, r);
    }
  }

  /** A failed rollback stays pending, with its newest evidence published. */
  method LeaveCompensating(env: Env, live: LiveRecord, pending: Pending, resume: Record, failure: Outcome<Option<Snapshot>>) returns (r: Outcome<()>)
    requires DurableOk(live.res.native, live.res.files)
    requires LiveOk(live.res.native, live.res.files, live.record, Compensating(pending, resume), live.registered)
    requires !failure.Done? && (failure.Died? ==> env.crashes)
    modifies live`record, live`state, live.res`files
    ensures DurableOk(live.res.native, live.res.files)
    ensures r.Fail? ==> LiveOk(live.res.native, live.res.files, live.record, live.state, live.registered) && SameClaim(live.record, old(live.record)) && failure == Fail(r.error)
    ensures r.Fail? ==> Core(live.state) == Compensating(pending, resume)
    ensures !r.Done? && (r.Died? ==> env.crashes)
  {
    hide DurableOk, LiveOk;
    r := failure.PropagateFailure();
    if failure.Fail? {
      var retained := KeepCompensating(env, live, pending, resume);
      if retained.Died? {
        r := Died;
      }
    }
  }

  lemma RollbackFinished(a: Native, b: Native, files: Files, r: Record, p: Pending, after: Pending, resume: Record, identity: Option<Snapshot>, rb: Record, sb: LiveState, env: Env, out: Outcome<()>)
    requires PendingOk(a, p, r.before.state)
    requires Compensation(a, b, files, r.identity, p, after, r.before.state, env, Done(identity))
    requires resume.phase.Prepared? ==> p.target.state == r.before.state
    requires (out.Fail? ==> env.failures) && (out.Died? ==> env.crashes)
    requires out.Done? ==> sb in {Committed, Unmutated} && SameClaim(rb, r)
    requires out.Done? && sb == Committed ==> identity.Some? && rb.applied == identity
    requires out.Done? && sb == Unmutated ==> resume.phase.Prepared? || identity.None?
    requires out.Fail? ==> rb == Resumed(resume, identity) && sb == Repair(NextState(rb))
    requires resume == r.(phase := resume.phase, applied := resume.applied)
    ensures Resolution(a, r, Compensating(p, resume), b, rb, sb, env, None, out)
  {
    if Foreign(a, b) && OwnsIfAny(b, identity) {
      StillOwned(a, b, identity.value);
    }
  }

  lemma CompensationDied(a: Native, b: Native, files: Files, r: Record, p: Pending, after: Pending, env: Env, undone: Outcome<Option<Snapshot>>)
    requires Compensation(a, b, files, r.identity, p, after, r.before.state, env, undone)
    ensures undone.Died? ==> env.crashes
  {
  }

  lemma RollbackOpen(a: Native, b: Native, files: Files, r: Record, p: Pending, after: Pending, resume: Record, rb: Record, sb: LiveState, env: Env, undone: Outcome<Option<Snapshot>>, out: Outcome<()>)
    requires Compensation(a, b, files, r.identity, p, after, r.before.state, env, undone)
    requires !undone.Done? && !out.Done? && (out.Fail? ==> undone.Fail?) && (out.Died? ==> env.crashes)
    requires out.Fail? ==> SameClaim(rb, r) && Core(sb) == Compensating(after, resume)
    ensures Resolution(a, r, Compensating(p, resume), b, rb, sb, env, None, out)
  {
  }

  /** Publishes what a finished rollback resumes with. */
  method FinishCompensation(env: Env, live: LiveRecord, ghost pending: Pending, resume: Record, identity: Option<Snapshot>) returns (r: Outcome<()>)
    requires DurableOk(live.res.native, live.res.files)
    requires LiveOk(live.res.native, live.res.files, live.record, Compensating(pending, resume), live.registered)
    requires Reached(live.res.native, pending.target, identity, live.record.before.state)
    modifies live`record, live`state, live.res`files
    ensures DurableOk(live.res.native, live.res.files)
    ensures !r.Died? ==> LiveOk(live.res.native, live.res.files, live.record, live.state, live.registered) && SameClaim(live.record, old(live.record))
    ensures r.Done? ==> live.state in {Committed, Unmutated}
    ensures r.Done? && live.state == Committed ==> identity.Some? && live.record.applied == identity
    ensures r.Done? && live.state == Unmutated ==> resume.phase.Prepared? || identity.None?
    ensures r.Fail? ==> env.failures && live.record == Resumed(resume, identity) && live.state == Repair(NextState(live.record))
    ensures r.Died? ==> env.crashes
  {
    hide WfNative, DurableOk, LiveOk;
    ghost var was, files := live.record, live.res.files;
    ghost var n := live.res.native;
    var candidate := Resumed(resume, identity);
    LiveParts(n, files, was, Compensating(pending, resume), live.registered);
    ResolvedOk(n, files, files, was, pending, resume, identity, live.registered);
    r := PersistLive(env, live, candidate);
    ResolvedOk(n, files, live.res.files, was, pending, resume, identity, live.registered);
  }

  /** Records a rollback that is still outstanding. */
  method KeepCompensating(env: Env, live: LiveRecord, pending: Pending, resume: Record) returns (r: Outcome<()>)
    requires DurableOk(live.res.native, live.res.files)
    requires LiveOk(live.res.native, live.res.files, live.record, Compensating(pending, resume), live.registered)
    modifies live`record, live`state, live.res`files
    ensures DurableOk(live.res.native, live.res.files)
    ensures !r.Died? ==> LiveOk(live.res.native, live.res.files, live.record, live.state, live.registered) && SameClaim(live.record, old(live.record))
    ensures r.Done? ==> live.state == Compensating(pending, resume)
    ensures r.Fail? ==> env.failures && live.state == Repair(Compensating(pending, resume))
    ensures r.Died? ==> env.crashes
  {
    hide WfNative, DurableOk, LiveOk;
    ghost var was, files := live.record, live.res.files;
    ghost var n := live.res.native;
    LiveParts(n, files, was, Compensating(pending, resume), live.registered);
    r := RetainCompensation(env, live, pending, resume);
    RetainedOk(n, files, live.res.files, was, pending, resume, live.registered);
  }

  /** A rollback attempt, whatever it did, leaves a well-formed pending rollback. */
  lemma LiveUnderRollback(a: Native, b: Native, files: Files, r: Record, p: Pending, after: Pending, resume: Record, registered: bool, env: Env, out: Outcome<Option<Snapshot>>)
    requires DurableOk(a, files) && LiveOk(a, files, r, Compensating(p, resume), registered)
    requires MayResolve(a, files, r, Compensating(p, resume))
    requires Compensation(a, b, files, r.identity, p, after, r.before.state, env, out) && DurableOk(b, files)
    ensures after.target == p.target
    ensures LiveOk(b, files, r, Compensating(after, resume), registered)
    ensures out.Done? ==> Reached(b, after.target, out.value, r.before.state)
  {
    RecordStays(a, b, r);
    if Foreign(a, b) {
      LiveUnderForeign(a, b, files, r, Compensating(p, resume), registered);
    } else {
      assert Last(b).writer.External? || Generation(b) == |a.log| || !b.present;
    }
  }

  /** Publishing residue evidence, even if the publication fails. */
  lemma RetainedOk(n: Native, files: Files, f: Files, r: Record, p: Pending, resume: Record, registered: bool)
    requires DurableOk(n, files) && LiveOk(n, files, r, Compensating(p, resume), registered)
    requires Published(files, f, Retained(r, p, resume))
    ensures var r' := Retained(r, p, resume);
            && SameClaim(r', r)
            && (r'.lease in f && f[r'.lease] == r' ==> LiveOk(n, f, r', Compensating(p, resume), registered))
            && LiveOk(n, f, r', Repair(Compensating(p, resume)), registered)
  {
  }
}
