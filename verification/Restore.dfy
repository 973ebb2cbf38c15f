/** Resolving an outstanding outcome, committing a verified mutation, and
    restoring one leased resource. */
module Restoring {
  import opened Dns
  import opened World
  import opened Durable
  import opened Backend
  import opened Engine
  import opened Live
  import opened Lifecycle

  /** Publishing the record of a repair, even if the publication fails. */
  lemma RepairOk(n: Native, files: Files, f: Files, r: Record, s: LiveState, registered: bool)
    requires DurableOk(n, files) && LiveOk(n, files, r, Repair(s), registered)
    requires Published(files, f, r)
    ensures DurableOk(n, f) && LiveOk(n, f, r, Repair(s), registered)
    ensures r.lease in f && f[r.lease] == r ==> LiveOk(n, f, r, s, registered) && MayResolve(n, f, r, s)
  {
    DurableUnderPublish(n, files, r);
  }

  /** Publishes `record` before the state behind a repair is interpreted. */
  method RepairJournal(env: Env, live: LiveRecord) returns (r: Outcome<()>)
    requires live.Valid() && live.state.Repair?
    modifies live`state, live.res`files
    ensures DurableOk(live.res.native, live.res.files)
    ensures !r.Died? ==> live.Valid()
    ensures r.Done? ==> live.state == old(live.state).next && MayResolve(live.res.native, live.res.files, live.record, live.state)
    ensures r.Fail? ==> env.failures && live.state == old(live.state)
    ensures r.Died? ==> env.crashes
  {
    hide DurableOk, LiveOk, MayResolve;
    ghost var files := live.res.files;
    r := live.res.JournalWrite(env, live.record);
    RepairOk(live.res.native, files, live.res.files, live.record, live.state.next, live.registered);
    if r.Done? {
      live.state := live.state.next;
    }
  }

  /** Brings a live record to `Committed` or `Unmutated`, or reports why its
      outcome is still unknown. */
  method ResolveLive(env: Env, live: LiveRecord, current: Option<Snapshot>) returns (r: Outcome<()>)
    requires live.Valid() && MayResolve(live.res.native, live.res.files, live.record, live.state)
    modifies live`record, live`state, live.res`native, live.res`files
    ensures DurableOk(live.res.native, live.res.files)
    ensures !r.Died? ==> live.Valid() && SameClaim(live.record, old(live.record))
    ensures Resolution(old(live.res.native), old(live.record), old(live.state), live.res.native, live.record, live.state, env, current, r)
    ensures old(live.state) in {Committed, Unmutated} ==> r.Done? && live.state == old(live.state) && live.res.files == old(live.res.files)
    ensures r.Done? ==> live.state in {Committed, Unmutated}
    ensures r.Died? ==> env.crashes
  {
    hide WfNative, DurableOk, LiveOk, MayResolve, Resolution;
    if !live.state.Repair? {
      r := ResolveOutcome(env, live, current);
      return;
    }
    NoNesting(live.res.native, live.res.files, live.record, live.state, live.registered);
    ghost var n, record, next := live.res.native, live.record, live.state.next;
    r := RepairJournal(env, live);
    if r.Done? {
      r := ResolveOutcome(env, live, current);
    } else {
      Unresolved(n, record, next, env, current, r);
    }
    Repaired(n, record, next, live.res.native, live.record, live.state, env, current, r);
  }

  lemma Unresolved(n: Native, r: Record, next: LiveState, env: Env, current: Option<Snapshot>, out: Outcome<()>)
    requires (out.Fail? ==> env.failures) && (out.Died? ==> env.crashes) && !out.Done? && !next.Repair?
    ensures Resolution(n, r, next, n, r, Repair(next), env, current, out)
  {
  }

  lemma Repaired(a: Native, ra: Record, next: LiveState, b: Native, rb: Record, sb: LiveState, env: Env, current: Option<Snapshot>, out: Outcome<()>)
    requires !next.Repair? && Resolution(a, ra, next, b, rb, sb, env, current, out)
    ensures Resolution(a, ra, Repair(next), b, rb, sb, env, current, out)
  {
  }

  /** Resolution proper, once the journal agrees with the record. */
  method ResolveOutcome(env: Env, live: LiveRecord, current: Option<Snapshot>) returns (r: Outcome<()>)
    requires live.Valid() && MayResolve(live.res.native, live.res.files, live.record, live.state)
    requires !live.state.Repair?
    modifies live`record, live`state, live.res`native, live.res`files
    ensures DurableOk(live.res.native, live.res.files)
    ensures !r.Died? ==> live.Valid() && SameClaim(live.record, old(live.record))
    ensures Resolution(old(live.res.native), old(live.record), old(live.state), live.res.native, live.record, live.state, env, current, r)
    ensures old(live.state) in {Committed, Unmutated} ==> r.Done? && live.state == old(live.state) && live.res.files == old(live.res.files)
    ensures r.Done? ==> live.state in {Committed, Unmutated}
    ensures r.Died? ==> env.crashes
  {
    hide WfNative, DurableOk, LiveOk, ForeignStrict, Later, RecordOk;
    LiveStates(live.res.native, live.res.files, live.record, live.state, live.registered);
    ghost var a, r0, s0, files := live.res.native, live.record, live.state, live.res.files;
    Stutter(a);
    match live.state {
      case Committed => r := Done(());
      case Unmutated => r := Done(());
      case Verified(_) =>
        r := ResolveVerified(env, live, current);
        ForeignIsLater(a, live.res.native);
        ForeignIsCounted(a, live.res.native);
        ClaimsDoNotAppear(a, live.res.native, files, r0, s0, live.registered);
      case Compensating(_, _) =>
        r := ResolveCompensation(env, live);
    }
  }

  lemma NoNesting(n: Native, files: Files, r: Record, s: LiveState, registered: bool)
    requires LiveOk(n, files, r, s, registered) && s.Repair?
    ensures s.next.Committed? || s.next.Unmutated? || s.next.Compensating?
  {
  }

  lemma LiveStates(n: Native, files: Files, r: Record, s: LiveState, registered: bool)
    requires LiveOk(n, files, r, s, registered)
    ensures s != LiveState.Prepared
    ensures s.Repair? ==> !s.next.Repair? && s.next != LiveState.Prepared
    ensures s == Committed ==> r.applied.Some? && r.phase.Applied? && StateMatches(r.applied.value.state, r.desired)
    ensures s.Verified? ==> s.mutation.Persist() == s.mutation.observed
  {
  }

  /** Publishes a verified mutation, which stays pending until that succeeds. */
  method CommitVerified(env: Env, live: LiveRecord, mutation: VerifiedMutation) returns (r: Outcome<()>)
    requires DurableOk(live.res.native, live.res.files)
    requires LiveOk(live.res.native, live.res.files, live.record, LiveState.Verified(mutation), live.registered)
    modifies live`record, live`state, live.res`native, live.res`files
    ensures DurableOk(live.res.native, live.res.files)
    ensures Foreign(old(live.res.native), live.res.native)
    ensures !r.Died? ==> live.Valid() && SameClaim(live.record, old(live.record))
    ensures r.Done? ==> live.state == Committed && live.record == Finalized(old(live.record), mutation)
    ensures r.Fail? ==> live.state == LiveState.Verified(mutation) && live.record == old(live.record)
    ensures !env.externals ==> live.res.native == old(live.res.native)
    ensures Quiet(env, old(live.res.native), live.res.native) && StatusOf(old(live.res.native), old(live.record).identity) == Same
            && Owns(old(live.res.native), mutation.Persist()) ==>
              !r.Fail?
    ensures r.Died? ==> env.crashes
  {
    hide DurableOk, LiveOk, Foreign;
    live.state := LiveState.Verified(mutation);
    r := ResolveVerified(env, live, None);
  }

  // ----- restoring

  /** A settled resource shows no overlay. */
  lemma SettledIsClean(n: Native, r: Record)
    requires WfNative(n) && Covers(n, r) && Settled(n, r.before.state)
    ensures !Overlay(n)
  {
    ExternalIsBase(n);
  }

  lemma RemovedOk(n: Native, files: Files, f: Files, r: Record, s: LiveState, registered: bool)
    requires DurableOk(n, files) && LiveOk(n, files, r, s, registered) && Settled(n, r.before.state)
    requires registered ==> StatusOf(n, r.identity) != Same
    requires f == files || f == files - {r.lease}
    ensures DurableOk(n, f) && LiveOk(n, f, r, s, registered) && LiveOk(n, f, r, s, false)
    ensures f == files - {r.lease} ==> f == map[]
  {
    SettledIsClean(n, r);
    if f == files - {r.lease} {
      DurableUnderRemove(n, files, r.lease);
      assert f.Keys == {};
    }
  }

  /** Gives up the journal record of a resource that needs no restoration. */
  method Discard(env: Env, live: LiveRecord) returns (r: Outcome<()>)
    requires live.Valid() && !live.registered && Settled(live.res.native, live.record.before.state)
    modifies live.res`files
    ensures live.Valid()
    ensures r.Done? ==> live.res.files == map[]
    ensures r.Fail? ==> env.failures
    ensures r.Died? ==> env.crashes
  {
    hide DurableOk, LiveOk, Settled;
    ghost var files := live.res.files;
    r := live.res.JournalRemove(env, live.record.lease);
    RemovedOk(live.res.native, files, live.res.files, live.record, live.state, false);
  }

  /** The rollback of a verified overlay to the original state. */
  function UndoOf(r: Record): Pending { Pending(r.applied, r.before) }

  function AfterUndo(r: Record): Record { r.(phase := Phase.Prepared, applied := None) }

  lemma UndoStarts(n: Native, files: Files, r: Record)
    requires DurableOk(n, files) && LiveOk(n, files, r, Committed, false)
    requires OwnsIfAny(n, r.applied) ==> Last(n).state != r.before.state
    ensures LiveOk(n, files, r, Compensating(UndoOf(r), AfterUndo(r)), false)
    ensures MayUndo(n, files, UndoOf(r), r.lease, r.before.state, r.identity)
  {
    ExternalIsBase(n);
  }

  /** A restoration away from the original state finds its journal file. */
  lemma RestoreMayResolve(n: Native, files: Files, r: Record, s: LiveState)
    requires DurableOk(n, files) && LiveOk(n, files, r, s, false)
    requires n.present ==> Last(n).state != r.before.state
    ensures MayResolve(n, files, r, s)
  {
    ExternalIsBase(n);
  }

  /** What restoring did to the resource. It is only written under a claim;
      success leaves nothing of ours, and without outside writers exactly the
      original state; and a claim is enough to succeed. */
  predicate Restoration(a: Native, r: Record, s: LiveState, b: Native, env: Env, out: Outcome<()>) {
    && Later(a, b)
    && (!env.externals ==> b.foreign == a.foreign)
    && (Foreign(a, b) || OwnsClaim(a, r, s))
    && (out.Died? ==> env.crashes)
    && (out.Done? ==> Settled(b, r.before.state))
    && (out.Done? && b.foreign == a.foreign && StatusOf(a, r.identity) == Same ==>
          b.present && Last(b).state == r.before.state)
    && (Quiet(env, a, b) && OwnsClaim(a, r, s) && StatusOf(a, r.identity) == Same ==> !out.Fail?)
    && (Quiet(env, a, b) && Last(a).state == r.before.state && StatusOf(a, r.identity) == Same ==> !out.Fail?)
  }

  /** A rollback of a committed overlay never loses the claim by itself. */
  lemma UndoKeepsRestorable(a: Native, r: Record, b: Native, files: Files, after: Pending, env: Env, undone: Outcome<Option<Snapshot>>, rb: Record, sb: LiveState)
    requires Compensation(a, b, files, r.identity, UndoOf(r), after, r.before.state, env, undone) && !undone.Died?
    requires OwnsIfAny(a, r.applied)
    requires SameClaim(rb, r) && Core(sb) == Compensating(after, AfterUndo(r))
    ensures StillRestorable(a, r, Committed, b, rb, sb, env)
  {
  }

  lemma ResolvedKeepsRestorable(a: Native, ra: Record, sa: LiveState, b: Native, rb: Record, sb: LiveState, env: Env, resolved: Outcome<()>)
    requires Resolution(a, ra, sa, b, rb, sb, env, Some(Current(a)), resolved) && !resolved.Died?
    requires Last(a).state != ra.before.state && SameClaim(rb, ra)
    ensures StillRestorable(a, ra, sa, b, rb, sb, env) && Later(a, b)
  {
  }

  /** Restoration of a committed overlay that the caller read as `current`. */
  method UndoOverlay(env: Env, live: LiveRecord, current: Snapshot) returns (r: Outcome<()>)
    requires live.Valid() && !live.registered
    requires live.state in {Committed, Unmutated}
    requires live.res.native.present && current == Current(live.res.native) && current.state != live.record.before.state
    modifies live`record, live`state, live.res`native, live.res`files
    ensures DurableOk(live.res.native, live.res.files)
    ensures r.Fail? ==> live.Valid() && SameClaim(live.record, old(live.record))
    ensures r.Done? ==> live.res.files == map[]
    ensures Restoration(old(live.res.native), old(live.record), old(live.state), live.res.native, env, r)
    ensures r.Fail? ==> StillRestorable(old(live.res.native), old(live.record), old(live.state), live.res.native, live.record, live.state, env)
    ensures r.Died? ==> env.crashes
  {
    hide WfNative, DurableOk, LiveOk, Foreign, ForeignStrict, Later, RolledBack, PendingOk, RecordOk, Covers, MayUndo, Evidence, Restorable;
    Stutter(live.res.native);
    var applied := live.Applied();
    if applied.None? || applied.value != current {
      return Fail(ExternalModification);
    }
    ghost var a, files := live.res.native, live.res.files;
    var record := live.record;
    UndoStarts(a, live.res.files, record);
    LiveParts(a, live.res.files, record, Compensating(UndoOf(record), AfterUndo(record)), false);
    live.state := Compensating(UndoOf(record), AfterUndo(record));
    var undone, after := Compensate(env, live.res, record.identity, UndoOf(record), record.lease, record.before.state, true);
    LiveUnderRollback(a, live.res.native, live.res.files, record, UndoOf(record), after, AfterUndo(record), false, env, undone);
    if undone.Done? {
      live.state := Compensating(after, AfterUndo(record));
      r := Discard(env, live);
    } else {
      r := LeaveCompensating(env, live, after, AfterUndo(record), undone);
    }
    if r.Fail? {
      UndoKeepsRestorable(a, record, live.res.native, files, after, env, undone, live.record, live.state);
    }
  }

  /** Restoration of a record whose last outcome is still open. */
  method ResolveThenUndo(env: Env, live: LiveRecord, current: Snapshot) returns (r: Outcome<()>)
    requires live.Valid() && !live.registered
    requires live.res.native.present && current == Current(live.res.native) && current.state != live.record.before.state
    modifies live`record, live`state, live.res`native, live.res`files
    ensures DurableOk(live.res.native, live.res.files)
    ensures r.Fail? ==> live.Valid() && SameClaim(live.record, old(live.record))
    ensures r.Done? ==> live.res.files == map[]
    ensures Restoration(old(live.res.native), old(live.record), old(live.state), live.res.native, env, r)
    ensures r.Fail? ==> StillRestorable(old(live.res.native), old(live.record), old(live.state), live.res.native, live.record, live.state, env)
    ensures r.Died? ==> env.crashes
  {
    hide WfNative, DurableOk, LiveOk, MayResolve, Foreign, Later, Restoration, Resolution, StillRestorable;
    ghost var a, r0, s0 := live.res.native, live.record, live.state;
    RestoreMayResolve(a, live.res.files, live.record, live.state);
    var resolved := ResolveLive(env, live, Some(current));
    ghost var b, r1, s1 := live.res.native, live.record, live.state;
    if !resolved.Died? {
      ResolvedKeepsRestorable(a, r0, s0, b, r1, s1, env, resolved);
    }
    if !resolved.Done? {
      ResolvedThenStopped(a, r0, s0, b, r1, s1, b, env, Some(current), resolved, resolved);
      return resolved;
    }
    var reading := live.res.Readback(env);
    ghost var c := live.res.native;
    ValidUnderForeign(b, c, live.res.files, live.record, live.state, false);
    ClaimsDoNotAppear(b, c, live.res.files, live.record, live.state, false);
    StillAfterForeign(a, r0, s0, b, r1, s1, c, env);
    if !reading.Done? || reading.value.state == live.record.before.state {
      if reading.Done? {
        r := Discard(env, live);
      } else {
        r := reading.PropagateFailure();
      }
      ResolvedThenStopped(a, r0, s0, b, r1, s1, c, env, Some(current), resolved, r);
      return;
    }
    r := UndoOverlay(env, live, reading.value);
    ResolvedThenUndone(a, r0, s0, b, r1, s1, c, live.res.native, env, Some(current), resolved, r);
    if r.Fail? {
      RestorationIsLater(c, r1, s1, live.res.native, env, r);
      LaterTransitive(a, b, c);
      StillTransitive(a, r0, s0, c, r1, s1, live.res.native, live.record, live.state, env);
    }
  }

  lemma RestorationIsLater(a: Native, r: Record, s: LiveState, b: Native, env: Env, out: Outcome<()>)
    requires Restoration(a, r, s, b, env, out)
    ensures Later(a, b)
  {
  }

  lemma ResolvedThenStopped(a: Native, ra: Record, sa: LiveState, b: Native, rb: Record, sb: LiveState, c: Native, env: Env, current: Option<Snapshot>, resolved: Outcome<()>, out: Outcome<()>)
    requires Resolution(a, ra, sa, b, rb, sb, env, current, resolved) && current == Some(Current(a))
    requires Foreign(b, c) && (!env.externals ==> c == b)
    requires Last(a).state != ra.before.state
    requires out.Died? ==> env.crashes
    requires out.Done? ==> resolved.Done? && rb.before == ra.before && c.present && Last(c).state == ra.before.state
    requires out.Fail? ==> resolved == out || (resolved.Done? && (env.failures || (out == Fail(ResourceGone) && !c.present)))
    requires a.present
    ensures Restoration(a, ra, sa, c, env, out)
  {
    ForeignIsLater(b, c);
    LaterTransitive(a, b, c);
    if Foreign(a, b) {
      ForeignTransitive(a, b, c);
    }
  }

  lemma ResolvedThenUndone(a: Native, ra: Record, sa: LiveState, b: Native, rb: Record, sb: LiveState, c: Native, d: Native, env: Env, current: Option<Snapshot>, resolved: Outcome<()>, out: Outcome<()>)
    requires Resolution(a, ra, sa, b, rb, sb, env, current, resolved) && current == Some(Current(a)) && resolved.Done?
    requires Foreign(b, c) && (!env.externals ==> c == b)
    requires Last(a).state != ra.before.state && Last(c).state != ra.before.state
    requires rb.before == ra.before && rb.identity == ra.identity
    requires OwnsClaim(c, rb, sb) ==> c == b
    requires Restoration(c, rb, sb, d, env, out)
    ensures Restoration(a, ra, sa, d, env, out)
  {
    ForeignIsLater(b, c);
    LaterTransitive(a, b, c);
    LaterTransitive(a, c, d);
    if Foreign(a, b) {
      ForeignTransitive(a, b, c);
      if Foreign(c, d) {
        ForeignTransitive(a, c, d);
      }
    }
  }

  /** Takes one leased resource back to `before` and drops its record. */
  method RestoreLive(env: Env, live: LiveRecord) returns (r: Outcome<()>)
    requires live.Valid() && !live.registered
    modifies live`record, live`state, live.res`native, live.res`files
    ensures DurableOk(live.res.native, live.res.files)
    ensures r.Fail? ==> live.Valid() && SameClaim(live.record, old(live.record))
    ensures r.Done? ==> live.res.files == map[]
    ensures Restoration(old(live.res.native), old(live.record), old(live.state), live.res.native, env, r)
    ensures r.Fail? ==> StillRestorable(old(live.res.native), old(live.record), old(live.state), live.res.native, live.record, live.state, env)
    ensures r.Died? ==> env.crashes
  {
    hide WfNative, DurableOk, LiveOk, Foreign, Later, Restoration, StillRestorable;
    ghost var a, r0, s0 := live.res.native, live.record, live.state;
    StillAtOnce(a, r0, s0, env);
    var status := live.res.Status(env, live.record.identity);
    ghost var b := live.res.native;
    ValidUnderForeign(a, b, live.res.files, live.record, live.state, false);
    StillAfterForeign(a, r0, s0, a, r0, s0, b, env);
    if !status.Done? || status.value != Same {
      if !status.Done? {
        r := status.PropagateFailure();
      } else if status.value == Ambiguous {
        r := Fail(ResourceIdentity);
      } else {
        ReplacedIsSettled(b, live.res.files, live.record, live.state, false);
        r := Discard(env, live);
      }
      StoppedEarly(a, r0, s0, b, env, r);
      return;
    }
    var reading := live.res.Readback(env);
    ghost var c := live.res.native;
    ForeignTransitive(a, b, c);
    ValidUnderForeign(a, c, live.res.files, live.record, live.state, false);
    ClaimsDoNotAppear(a, c, live.res.files, live.record, live.state, false);
    StillAfterForeign(a, r0, s0, a, r0, s0, c, env);
    if !reading.Done? || reading.value.state == live.record.before.state {
      if reading.Done? || reading == Fail(ResourceGone) {
        r := Discard(env, live);
      } else {
        r := reading.PropagateFailure();
      }
      StoppedEarly(a, r0, s0, c, env, r);
      return;
    }
    if live.state != Committed {
      r := ResolveThenUndo(env, live, reading.value);
    } else {
      r := UndoOverlay(env, live, reading.value);
    }
    RestorationIsLater(c, r0, s0, live.res.native, env, r);
    ReadThenRestored(a, c, live.res.native, r0, s0, env, r);
    if r.Fail? {
      StillTransitive(a, r0, s0, c, r0, s0, live.res.native, live.record, live.state, env);
    }
  }

  lemma StoppedEarly(a: Native, r: Record, s: LiveState, b: Native, env: Env, out: Outcome<()>)
    requires Foreign(a, b) && (!env.externals ==> b == a)
    requires out.Died? ==> env.crashes
    requires out.Fail? ==> env.failures
    requires out.Done? ==> Settled(b, r.before.state)
    requires out.Done? && b.foreign == a.foreign && StatusOf(a, r.identity) == Same ==> b.present && Last(b).state == r.before.state
    ensures Restoration(a, r, s, b, env, out)
  {
    ForeignIsLater(a, b);
  }

  lemma ReadThenRestored(a: Native, b: Native, c: Native, r: Record, s: LiveState, env: Env, out: Outcome<()>)
    requires Foreign(a, b) && (!env.externals ==> b == a)
    requires OwnsClaim(b, r, s) ==> b == a
    requires Restoration(b, r, s, c, env, out)
    ensures Restoration(a, r, s, c, env, out)
  {
    ForeignIsLater(a, b);
    LaterTransitive(a, b, c);
    if Foreign(b, c) {
      ForeignTransitive(a, b, c);
    }
  }

  lemma ReplacedIsSettled(n: Native, files: Files, r: Record, s: LiveState, registered: bool)
    requires LiveOk(n, files, r, s, registered) && StatusOf(n, r.identity) != Same
    ensures Settled(n, r.before.state)
  {
  }

  // ----- retrying

  /** Failures of every kind, but nobody else writes and every write is named. */
  predicate OwnFailures(env: Env) { !env.externals && !env.crashes && !env.silent }

  lemma RestorableSucceeds(a: Native, r: Record, s: LiveState, b: Native, env: Env, out: Outcome<()>)
    requires Restoration(a, r, s, b, env, out) && Restorable(a, r, s) && OwnFailures(env)
    ensures !out.Died? && b.foreign == a.foreign && StatusOf(b, r.identity) == Same
    ensures Calm(env) ==> out.Done?
    ensures out.Done? ==> b.present && Last(b).state == r.before.state
  {
  }

  /** However many attempts to restore failed, in whatever way, the next one
      that nothing disturbs takes the resource back. */
  method RestoreEventually(live: LiveRecord, attempts: seq<Env>) returns (tries: nat)
    requires live.Valid() && !live.registered
    requires Restorable(live.res.native, live.record, live.state)
    requires forall i :: 0 <= i < |attempts| ==> OwnFailures(attempts[i])
    modifies live`record, live`state, live.res`native, live.res`files
    ensures live.res.files == map[] && live.res.native.present && DurableOk(live.res.native, live.res.files)
    ensures Last(live.res.native).state == old(live.record).before.state
    ensures 1 <= tries <= |attempts| + 1
  {
    hide DurableOk, LiveOk, Restoration, Restorable;
    for k := 0 to |attempts|
      invariant live.Valid() && !live.registered && live.record.before == old(live.record).before
      invariant Restorable(live.res.native, live.record, live.state)
    {
      ghost var a, r0, s0 := live.res.native, live.record, live.state;
      var r := RestoreLive(attempts[k], live);
      RestorableSucceeds(a, r0, s0, live.res.native, attempts[k], r);
      if r.Done? {
        return k + 1;
      }
    }
    ghost var a, r0, s0 := live.res.native, live.record, live.state;
    var quiet := Env(false, false, false, false, false);
    var r := RestoreLive(quiet, live);
    RestorableSucceeds(a, r0, s0, live.res.native, quiet, r);
    tries := |attempts| + 1;
  }
}
