/** Enforce: rebasing a lease onto an externally changed base and applying its
    overlay again. */
module Reconcile {
  import opened Dns
  import opened World
  import opened Durable
  import opened Backend
  import opened Engine
  import opened Live
  import opened Lifecycle
  import opened Restoring
  import Schedule

  datatype Verdict =
    | NoActiveLease
    | IdentityAmbiguous
    | StillOurs
    | Rebased
    | Postponed
    | Unsuccessful

  /** The engine write at the record's applied generation replaced a state
      equal to the journaled base, under a journaled intent, and satisfies the
      lease's desired configuration. Unless the write failed in part, it is
      exactly the base with that configuration merged into it. */
  predicate RebasedOn(n: Native, r: Record, s: LiveState, from: nat, env: Env) {
    && s == Committed && r.applied.Some?
    && var g := r.applied.value.generation;
    && from <= g < |n.log| && 0 < g
    && n.log[g].writer.Engine?
    && n.log[g - 1].state == r.before.state
    && r.lease in n.log[g].writer.journal
    && n.log[g].writer.journal[r.lease].before == r.before
    && n.log[g].writer.journal[r.lease].phase == Phase.Prepared
    && n.log[g].state == r.applied.value.state
    && StateMatches(r.applied.value.state, r.desired)
    && (env.failures || n.log[g].state == MergeState(r.before.state, r.desired))
  }

  /** A rebase after an update that changed nothing follows the plan that was
      stored before: it leaves what the newer plan asks for exactly when that
      difference is immaterial over the new base. `shown` satisfied both plans. */
  lemma RebaseAfterUnneeded(n: Native, r: Record, s: LiveState, from: nat, env: Env, shown: DnsState, newer: Plan)
    requires RebasedOn(n, r, s, from, env) && !env.failures
    requires StateMatches(shown, r.desired) && StateMatches(shown, newer)
    ensures r.applied.value.state == MergeState(r.before.state, newer) <==>
            r.desired.defaultRoute == newer.defaultRoute || RouteOf(r.before.state) == RouteOf(shown)
  {
    SatisfiedTogether(shown, r.desired, newer, r.before.state);
  }

  /** What applying the overlay over `expected` did. */
  predicate Overlaid(a: Native, b: Native, expected: Snapshot, before: Snapshot, r: Record, s: LiveState, env: Env, out: Outcome<Verdict>) {
    && Later(a, b)
    && (!env.externals ==> b.foreign == a.foreign)
    && (out.Died? ==> env.crashes)
    && !out.Fail?
    && (out.Done? ==> out.value in {Rebased, Unsuccessful})
    && (out == Done(Rebased) ==> RebasedOn(b, r, s, |a.log|, env) && r.before == before)
    && (Quiet(env, a, b) && StatusOf(a, r.identity) == Same ==> out.Done? ==> out.value == Rebased)
  }

  /** The intent to overlay `before`. */
  function Intent(r: Record, before: Snapshot): Record {
    r.(before := before, phase := Phase.Prepared, applied := None)
  }

  lemma IntentOk(n: Native, files: Files, r: Record, s: LiveState, expected: Snapshot, before: Snapshot)
    requires DurableOk(n, files) && LiveOk(n, files, r, s, true)
    requires n.present && expected == Current(n) && !Overlay(n) && before.state == expected.state
    requires Evidence(n, before, before.state)
    ensures RecordOk(n, Intent(r, before)) && Covers(n, Intent(r, before))
    ensures Evidence(n, expected, before.state)
    ensures LiveOk(n, files[r.lease := Intent(r, before)], Intent(r, before), Unmutated, true)
    ensures HasFile(files[r.lease := Intent(r, before)], r.lease, before.state, r.identity)
  {
  }

  /** A verified mutation of a prepared, published record. */
  lemma VerifiedIsLive(a: Native, b: Native, files: Files, r: Record, expected: Snapshot, m: VerifiedMutation, env: Env)
    requires LiveOk(a, files, r, Unmutated, true) && DurableOk(b, files) && Later(a, b)
    requires r.lease in files && files[r.lease] == r
    requires VerifiedOk(a, b, files, expected, r.desired, r.before.state, m, env)
    ensures LiveOk(b, files, r, LiveState.Verified(m), true)
  {
    RecordStays(a, b, r);
    ExternalIsBase(b);
  }

  /** A failed mutation of a prepared, published record over its own base. */
  lemma FailedIsLive(a: Native, b: Native, files: Files, r: Record, expected: Snapshot, residue: Residue, env: Env)
    requires LiveOk(a, files, r, Unmutated, true) && DurableOk(b, files) && Later(a, b) && DurableOk(a, files)
    requires r.lease in files && files[r.lease] == r
    requires expected.state == r.before.state && !Overlay(a)
    requires ResidueOk(a, b, files, r.identity, None, expected, r.before.state, residue, env)
    ensures LiveOk(b, files, r, if residue.Unresolved? then Compensating(residue.pending, r) else Unmutated, true)
  {
    RecordStays(a, b, r);
    ForeignClearsIfForeign(a, b);
    if residue.Restored? {
      SettledIsClean(b, r);
    }
  }

  lemma ForeignClearsIfForeign(a: Native, b: Native)
    requires WfNative(a) && !Overlay(a)
    ensures Foreign(a, b) ==> !Overlay(b)
  {
    if Foreign(a, b) {
      ForeignClears(a, b);
    }
  }

  lemma OverlayNotTried(n: Native, expected: Snapshot, before: Snapshot, r: Record, s: LiveState, env: Env, out: Outcome<Verdict>)
    requires out == Done(Unsuccessful) || (out.Died? && env.crashes)
    requires out.Done? ==> env.failures
    ensures Overlaid(n, n, expected, before, r, s, env, out)
  {
  }

  lemma OverlayFailed(a: Native, b: Native, expected: Snapshot, r: Record, s: LiveState, env: Env, out: Outcome<Verdict>)
    requires Later(a, b) && (!env.externals ==> b.foreign == a.foreign)
    requires out == Done(Unsuccessful) || (out.Died? && env.crashes)
    requires Quiet(env, a, b) && StatusOf(a, r.identity) == Same ==> !out.Done?
    ensures Overlaid(a, b, expected, r.before, r, s, env, out)
  {
  }

  lemma RebaseCommitted(a: Native, b: Native, c: Native, files: Files, r: Record, expected: Snapshot, m: VerifiedMutation, env: Env, committed: Outcome<()>, rc: Record, sc: LiveState, out: Outcome<Verdict>)
    requires VerifiedOk(a, b, files, expected, r.desired, r.before.state, m, env) && Later(a, b)
    requires (!env.externals ==> b.foreign == a.foreign)
    requires Foreign(b, c) && (!env.externals ==> c == b)
    requires r.lease in files && files[r.lease] == r && r.phase.Prepared? && expected.state == r.before.state
    requires !committed.Died? ==> SameClaim(rc, r)
    requires committed.Done? ==> rc == Finalized(r, m) && sc == Committed
    requires committed.Died? ==> env.crashes
    requires Quiet(env, b, c) && StatusOf(b, r.identity) == Same && Owns(b, m.Persist()) ==> !committed.Fail?
    requires out == if committed.Died? then Died else Done(if committed.Done? then Rebased else Unsuccessful)
    ensures Overlaid(a, c, expected, r.before, rc, sc, env, out)
  {
    ForeignIsLater(b, c);
    LaterTransitive(a, b, c);
    assert c.log[|a.log|] == b.log[|a.log|] == EngineWrite(a, b.log[|a.log|].state, files).log[|a.log|];
    assert c.log[|a.log| - 1] == a.log[|a.log| - 1];
  }

  /** The parts of a record that a rebase keeps. */
  predicate SameIntent(a: Record, b: Record) {
    a == b.(before := a.before, phase := a.phase, applied := a.applied)
  }

  /** One full rebase transaction: intent, mutation, verification, commit. */
  method ApplyOverlay(env: Env, live: LiveRecord, expected: Snapshot, before: Snapshot) returns (r: Outcome<Verdict>)
    requires live.Valid() && live.registered && live.state in {Committed, Unmutated}
    requires live.res.native.present && expected == Current(live.res.native) && !Overlay(live.res.native)
    requires before.state == expected.state && Evidence(live.res.native, before, before.state)
    modifies live`record, live`state, live.res`native, live.res`files
    ensures DurableOk(live.res.native, live.res.files)
    ensures !r.Died? ==> live.Valid() && SameIntent(live.record, old(live.record))
    ensures r in {Done(Rebased), Done(Unsuccessful), Died}
    ensures Overlaid(old(live.res.native), live.res.native, expected, before, live.record, live.state, env, r)
  {
    hide WfNative, DurableOk, LiveOk, Foreign, Later, RecordOk, Covers, Evidence, ResidueOk, VerifiedOk, Overlaid;
    ghost var a := live.res.native;
    var candidate := Intent(live.record, before);
    IntentOk(a, live.res.files, live.record, live.state, expected, before);
    var prepared := PrepareLive(env, live, candidate);
    if !prepared.Done? {
      r := if prepared.Died? then Died else Done(Unsuccessful);
      OverlayNotTried(a, expected, before, live.record, live.state, env, r);
      return;
    }
    live.state := LiveState.Prepared;
    var mutation := MutateAndVerify(env, live.res, candidate.identity, expected, candidate.desired, candidate.lease, before.state);
    ghost var b := live.res.native;
    match mutation {
      case Lost =>
        r := Died;
        OverlayFailed(a, b, expected, candidate, live.state, env, r);
      case Verified(m) =>
        VerifiedIsLive(a, b, live.res.files, candidate, expected, m, env);
        ghost var files := live.res.files;
        var committed := CommitVerified(env, live, m);
        r := if committed.Died? then Died else Done(if committed.Done? then Rebased else Unsuccessful);
        RebaseCommitted(a, b, live.res.native, files, candidate, expected, m, env, committed, live.record, live.state, r);
      case Failed(_, residue) =>
        FailedIsLive(a, b, live.res.files, candidate, expected, residue, env);
        live.state := if residue.Unresolved? then Compensating(residue.pending, candidate) else Unmutated;
        r := Done(Unsuccessful);
        OverlayFailed(a, b, expected, candidate, live.state, env, r);
    }
  }

  /** What one reconciliation pass did, and why. */
  predicate Pass(a: Native, ra: Record, sa: LiveState, b: Native, rb: Record, sb: LiveState, env: Env, out: Outcome<Verdict>) {
    && Later(a, b)
    && (!env.externals ==> b.foreign == a.foreign)
    && (out.Died? ==> env.crashes)
    && !out.Fail?
    && (out == Done(StillOurs) ==> sb == Committed && OwnsIfAny(b, rb.applied) && StateMatches(Last(b).state, rb.desired))
    && (out == Done(Rebased) ==> RebasedOn(b, rb, sb, |a.log|, env))
    // equal values under a foreign identity grant nothing
    && (b.foreign == a.foreign && sa in {Committed, Unmutated} && a.present && !OwnsClaim(a, ra, sa) && StateMatches(Last(a).state, ra.desired) ==>
          && b == a
          && (out.Done? ==> out.value !in {Rebased, StillOurs} && rb == ra && sb == sa))
    // a resource that was changed by others is rebased
    && (Quiet(env, a, b) && sa in {Committed, Unmutated} && StatusOf(a, ra.identity) == Same && !OwnsClaim(a, ra, sa) && !StateMatches(Last(a).state, ra.desired) ==>
          out.Done? ==> out.value in {Rebased, Postponed})
  }

  /** The state is neither ours nor what is desired nor the journaled base: it
      would become the new base, which takes the breaker's permission. */
  predicate AsksBreaker(n: Native, r: Record, s: LiveState) {
    !OwnsClaim(n, r, s) && !StateMatches(Last(n).state, r.desired) && Last(n).state != r.before.state
  }

  function GateOf<K>(breaker: map<K, Schedule.Breaker>, k: K, now: nat): (Schedule.Breaker, Option<nat>) {
    Schedule.Gate(if k in breaker then breaker[k] else Schedule.Breaker([], None), now)
  }

  /** What a quiet pass over a settled record decides. */
  predicate Decides(a: Native, ra: Record, sa: LiveState, b: Native, rb: Record, sb: LiveState, wait: Option<nat>, out: Verdict) {
    if OwnsClaim(a, ra, sa) then out == StillOurs
    else if StateMatches(Last(a).state, ra.desired) then out == Postponed
    else if AsksBreaker(a, ra, sa) && wait.Some? then out == Postponed && b == a && rb == ra && sb == sa
    else out == Rebased
  }

  /** How a pass uses the breaker: it is asked at most once, and a journaled base
      is replaced only with its permission. */
  predicate Gated<K>(a: Native, ra: Record, sa: LiveState, b: Native, rb: Record, sb: LiveState, env: Env, out: Outcome<Verdict>, k: K, now: nat, before: map<K, Schedule.Breaker>, after: map<K, Schedule.Breaker>) {
    var gate := GateOf(before, k, now);
    && (after == before || after == before[k := gate.0])
    && (out == Done(Rebased) && rb.before.state != ra.before.state ==> gate.1.None? && after == before[k := gate.0])
    && (Quiet(env, a, b) && sa in {Committed, Unmutated} && StatusOf(a, ra.identity) == Same && !out.Died? ==>
          && out.Done?
          && Decides(a, ra, sa, b, rb, sb, gate.1, out.value)
          && after == if AsksBreaker(a, ra, sa) then before[k := gate.0] else before)
  }

  /** A pass that could not read a stable state. */
  predicate Interrupted(a: Native, n: Native, env: Env, out: Outcome<Verdict>) {
    || (out.Died? && env.crashes)
    || (out == Done(NoActiveLease) && !n.present)
    || (out == Done(Unsuccessful) && (env.failures || !n.present))
    || (out == Done(Postponed) && n.foreign != a.foreign)
  }

  /** The record of a resource whose native object is gone is dropped. */
  method DropRecord<K>(env: Env, live: LiveRecord, reconciler: Schedule.Reconciler<K>, k: K) returns (r: Outcome<Verdict>)
    requires live.Valid() && live.registered && StatusOf(live.res.native, live.record.identity) != Same
    modifies live`registered, live.res`files, reconciler
    ensures live.Valid()
    ensures if r == Done(NoActiveLease) then reconciler.pending == old(reconciler.pending) - {k} && reconciler.breaker == old(reconciler.breaker) - {k}
            else reconciler.pending == old(reconciler.pending) && reconciler.breaker == old(reconciler.breaker)
    ensures r in {Done(NoActiveLease), Done(Unsuccessful), Died}
    ensures r == Done(NoActiveLease) ==> !live.registered && live.res.files == map[]
    ensures r != Done(NoActiveLease) ==> live.registered
    ensures r == Done(Unsuccessful) ==> env.failures
    ensures r.Died? ==> env.crashes
  {
    hide DurableOk, LiveOk;
    ghost var files := live.res.files;
    ReplacedIsSettled(live.res.native, files, live.record, live.state, true);
    var removed := live.res.JournalRemove(env, live.record.lease);
    RemovedOk(live.res.native, files, live.res.files, live.record, live.state, true);
    match removed {
      case Done(_) =>
        live.registered := false;
        reconciler.Remove(k);
        r := Done(NoActiveLease);
      case Fail(_) => r := Done(Unsuccessful);
      case Died => r := Died;
    }
  }

  /** One pass over an active resource. `now` is the time of the pass; the
      breaker is asked before the base is replaced. */
  method ReconcilePass<K>(env: Env, live: LiveRecord, reconciler: Schedule.Reconciler<K>, k: K, now: nat) returns (r: Outcome<Verdict>)
    requires live.Valid() && live.registered
    modifies live`record, live`state, live`registered, live.res`native, live.res`files, reconciler
    ensures DurableOk(live.res.native, live.res.files)
    ensures !r.Died? ==> live.Valid() && SameIntent(live.record, old(live.record))
    ensures !r.Died? ==> (live.registered <==> r != Done(NoActiveLease))
    ensures r != Done(IdentityAmbiguous)
    ensures Pass(old(live.res.native), old(live.record), old(live.state), live.res.native, live.record, live.state, env, r)
    ensures r != Done(NoActiveLease) ==>
              Gated(old(live.res.native), old(live.record), old(live.state), live.res.native, live.record, live.state, env, r, k, now, old(reconciler.breaker), reconciler.breaker)
    ensures r == Done(NoActiveLease) ==> k !in reconciler.breaker && k !in reconciler.pending
    ensures r !in {Done(Postponed), Done(NoActiveLease)} ==> reconciler.pending == old(reconciler.pending)
    ensures r.Died? ==> env.crashes
  {
    hide WfNative, DurableOk, LiveOk, Foreign, Later, MayResolve, Resolution, Pass, Gated;
    ghost var a, ra, sa := live.res.native, live.record, live.state;
    ActiveMayResolve(a, live.res.files, ra, sa);
    var resolved := ResolveLive(env, live, None);
    ghost var b, rb, sb := live.res.native, live.record, live.state;
    ghost var breaker := reconciler.breaker;
    if !resolved.Done? {
      r := match resolved
        case Fail(error) => ReadVerdict(error)
        case Died => Died;
      PassUnresolved(a, ra, sa, b, rb, sb, env, resolved, r);
      NotAsked(a, ra, sa, b, rb, sb, env, r, k, now, reconciler.breaker);
      return;
    }
    ghost var c;
    r, c := ReconcileResolved(env, live, reconciler, k, now);
    PassResolved(a, ra, sa, b, rb, sb, c, live.res.native, live.record, live.state, env, resolved, r);
    if r != Done(NoActiveLease) {
      PassIsLater(b, c, rb, sb, live.res.native, live.record, live.state, env, r);
      GatedResolved(a, ra, sa, b, rb, sb, live.res.native, live.record, live.state, env, resolved, r, k, now, breaker, reconciler.breaker);
    }
  }

  /** A pass that ended before it decided did not ask the breaker. */
  lemma NotAsked<K>(a: Native, ra: Record, sa: LiveState, b: Native, rb: Record, sb: LiveState, env: Env, out: Outcome<Verdict>, k: K, now: nat, breaker: map<K, Schedule.Breaker>)
    requires out == Done(Postponed) || out == Done(Unsuccessful) || out.Died?
    requires sa in {Committed, Unmutated} && Quiet(env, a, b) && StatusOf(a, ra.identity) == Same ==> out.Died?
    ensures Gated(a, ra, sa, b, rb, sb, env, out, k, now, breaker, breaker)
  {
  }

  lemma GatedResolved<K>(a: Native, ra: Record, sa: LiveState, b: Native, rb: Record, sb: LiveState, c: Native, rc: Record, sc: LiveState, env: Env, resolved: Outcome<()>, out: Outcome<Verdict>, k: K, now: nat, before: map<K, Schedule.Breaker>, after: map<K, Schedule.Breaker>)
    requires Resolution(a, ra, sa, b, rb, sb, env, None, resolved) && resolved.Done? && SameClaim(rb, ra)
    requires sa in {Committed, Unmutated} ==> sb == sa
    requires b.foreign <= c.foreign && Gated(b, rb, sb, c, rc, sc, env, out, k, now, before, after)
    ensures Gated(a, ra, sa, c, rc, sc, env, out, k, now, before, after)
  {
  }

  /** The rest of a pass, once no outcome is open. `c` is what was read. */
  method ReconcileResolved<K>(env: Env, live: LiveRecord, reconciler: Schedule.Reconciler<K>, k: K, now: nat) returns (r: Outcome<Verdict>, ghost c: Native)
    requires live.Valid() && live.registered && live.state in {Committed, Unmutated}
    modifies live`record, live`state, live`registered, live.res`native, live.res`files, reconciler
    ensures DurableOk(live.res.native, live.res.files)
    ensures !r.Died? ==> live.Valid() && SameIntent(live.record, old(live.record))
    ensures !r.Died? ==> (live.registered <==> r != Done(NoActiveLease))
    ensures r != Done(IdentityAmbiguous)
    ensures Foreign(old(live.res.native), c) && (!env.externals ==> c == old(live.res.native))
    ensures r != Done(NoActiveLease) ==>
              Gated(old(live.res.native), old(live.record), old(live.state), live.res.native, live.record, live.state, env, r, k, now, old(reconciler.breaker), reconciler.breaker)
    ensures r == Done(NoActiveLease) ==> k !in reconciler.breaker && k !in reconciler.pending
    ensures r !in {Done(Postponed), Done(NoActiveLease)} ==> reconciler.pending == old(reconciler.pending)
    ensures || Pass(c, old(live.record), old(live.state), live.res.native, live.record, live.state, env, r)
            || (live.res.native == c && live.record == old(live.record) && live.state == old(live.state) && Interrupted(old(live.res.native), c, env, r))
    ensures r.Died? ==> env.crashes
  {
    hide WfNative, DurableOk, LiveOk, Foreign, Later, Pass, Gated;
    ghost var b, rb, sb, breaker := live.res.native, live.record, live.state, reconciler.breaker;
    var reading := ReadStable(env, live);
    c := live.res.native;
    Stutter(c);
    match reading {
      case Died => r := Died;
      case Fail(error) =>
        if error == ResourceGone {
          r := DropRecord(env, live, reconciler, k);
        } else {
          r := ReadVerdict(error);
        }
      case Done(second) =>
        r := ReconcileStable(env, live, second, reconciler, k, now);
        GatedSince(b, c, rb, sb, live.res.native, live.record, live.state, env, r, k, now, breaker, reconciler.breaker);
        return;
    }
    if r != Done(NoActiveLease) {
      GatedInterrupted(b, rb, sb, c, env, r, k, now, breaker);
    }
  }

  lemma GatedInterrupted<K>(a: Native, r: Record, s: LiveState, b: Native, env: Env, out: Outcome<Verdict>, k: K, now: nat, breaker: map<K, Schedule.Breaker>)
    requires Foreign(a, b) && Interrupted(a, b, env, out) && out != Done(NoActiveLease)
    ensures Gated(a, r, s, b, r, s, env, out, k, now, breaker, breaker)
  {
    ForeignIsCounted(a, b);
  }

  function ReadVerdict(error: Error): Outcome<Verdict> {
    Done(if error == ExternalModification then Postponed else Unsuccessful)
  }

  /** Two reads a window apart that must agree. A failure `ExternalModification`
      stands for an unstable state. */
  method ReadStable(env: Env, live: LiveRecord) returns (r: Outcome<Snapshot>)
    requires live.Valid()
    modifies live.res`native
    ensures live.Valid() && Foreign(old(live.res.native), live.res.native)
    ensures !env.externals ==> live.res.native == old(live.res.native)
    ensures r.Done? ==> live.res.native.present && r.value == Current(live.res.native)
    ensures r.Fail? ==> Interrupted(old(live.res.native), live.res.native, env, ReadVerdict(r.error))
    ensures r == Fail(ResourceGone) ==> !live.res.native.present
    ensures r.Died? ==> env.crashes
  {
    hide DurableOk, LiveOk, ForeignStrict;
    ghost var a := live.res.native;
    var first := live.res.Readback(env);
    ghost var b := live.res.native;
    ValidUnderForeign(a, b, live.res.files, live.record, live.state, live.registered);
    var one :- first;
    var second := live.res.Readback(env);
    ForeignTransitive(a, b, live.res.native);
    ValidUnderForeign(b, live.res.native, live.res.files, live.record, live.state, live.registered);
    var two :- second;
    ForeignIsCounted(a, b);
    ForeignIsCounted(b, live.res.native);
    if one.state != two.state {
      return Fail(ExternalModification);
    }
    r := Done(two);
  }

  /** How long a pass holds off, if it does. */
  function WaitOf(n: Native, r: Record, s: LiveState, wait: Option<nat>): Option<nat> {
    if OwnsClaim(n, r, s) then None
    else if StateMatches(Last(n).state, r.desired) then Some(Schedule.IDENTITY_RETRY)
    else if AsksBreaker(n, r, s) then wait
    else None
  }

  /** The decision of a pass on a stable state. */
  method ReconcileStable<K>(env: Env, live: LiveRecord, second: Snapshot, reconciler: Schedule.Reconciler<K>, k: K, now: nat) returns (r: Outcome<Verdict>)
    requires live.Valid() && live.registered && live.state in {Committed, Unmutated}
    requires live.res.native.present && second == Current(live.res.native)
    modifies live`record, live`state, live.res`native, live.res`files, reconciler
    ensures DurableOk(live.res.native, live.res.files)
    ensures !r.Died? ==> live.Valid() && SameIntent(live.record, old(live.record))
    ensures r !in {Done(NoActiveLease), Done(IdentityAmbiguous)}
    ensures Later(old(live.res.native), live.res.native)
    ensures Gated(old(live.res.native), old(live.record), old(live.state), live.res.native, live.record, live.state, env, r, k, now, old(reconciler.breaker), reconciler.breaker)
    ensures reconciler.pending == match WaitOf(old(live.res.native), old(live.record), old(live.state), GateOf(old(reconciler.breaker), k, now).1)
              case None => old(reconciler.pending)
              case Some(wait) => old(reconciler.pending)[k := Schedule.Deferred(old(reconciler.Waiting(k)), wait, false, now)]
    ensures r !in {Done(Postponed), Done(NoActiveLease)} ==> reconciler.pending == old(reconciler.pending)
    // what is ours, what is equal but not ours, and what the breaker forbids to
    // replace is left as it is
    ensures OwnsClaim(old(live.res.native), old(live.record), old(live.state)) ==> r == Done(StillOurs)
    ensures WaitOf(old(live.res.native), old(live.record), old(live.state), GateOf(old(reconciler.breaker), k, now).1).Some? ==> r == Done(Postponed)
    ensures r in {Done(StillOurs), Done(Postponed)} ==>
              && live.res.native == old(live.res.native)
              && live.res.files == old(live.res.files)
              && live.record == old(live.record)
              && live.state == old(live.state)
    ensures Pass(old(live.res.native), old(live.record), old(live.state), live.res.native, live.record, live.state, env, r)
    ensures r.Died? ==> env.crashes
  {
    hide WfNative, DurableOk, LiveOk, Foreign, Later, Overlaid, Pass, Schedule.Gate, Schedule.Deferred, Gated, AsksBreaker, WaitOf, OwnsClaim;
    ghost var a, ra, sa, breaker := live.res.native, live.record, live.state, reconciler.breaker;
    Stutter(a);
    StableFacts(a, live.res.files, ra, sa);
    Decisions(a, ra, sa, GateOf(breaker, k, now).1);
    var applied := live.Applied();
    if applied.Some? && applied.value == second {
      // a committed overlay that is owned always satisfies the lease
      if StateMatches(second.state, live.record.desired) {
        r := Done(StillOurs);
      } else {
        assert false;
      }
      PassStays(a, ra, sa, env, r);
      GatedStays(a, ra, sa, env, k, now, breaker, breaker, r);
      return;
    }
    if StateMatches(second.state, live.record.desired) {
      reconciler.DeferAt(k, Schedule.IDENTITY_RETRY, false, now);
      r := Done(Postponed);
      PassStays(a, ra, sa, env, r);
      GatedStays(a, ra, sa, env, k, now, breaker, breaker, r);
      return;
    }
    var before := live.record.before;
    if second.state != before.state {
      var wait := reconciler.BreakerGate(k, now);
      if wait.Some? {
        reconciler.DeferAt(k, wait.value, false, now);
        r := Done(Postponed);
        PassStays(a, ra, sa, env, r);
        GatedStays(a, ra, sa, env, k, now, breaker, reconciler.breaker, r);
        return;
      }
      before := second;
    }
    r := ApplyOverlay(env, live, second, before);
    PassOverlaid(a, ra, sa, second, before, live.res.native, live.record, live.state, env, r);
    GatedOverlaid(a, ra, sa, second, before, live.res.native, live.record, live.state, env, k, now, breaker, reconciler.breaker, r);
  }

  lemma Decisions(n: Native, r: Record, s: LiveState, wait: Option<nat>)
    ensures OwnsClaim(n, r, s) ==> WaitOf(n, r, s, wait).None? && !AsksBreaker(n, r, s)
    ensures !OwnsClaim(n, r, s) && StateMatches(Last(n).state, r.desired) ==> WaitOf(n, r, s, wait) == Some(Schedule.IDENTITY_RETRY) && !AsksBreaker(n, r, s)
    ensures !OwnsClaim(n, r, s) && !StateMatches(Last(n).state, r.desired) ==>
              && (AsksBreaker(n, r, s) <==> Last(n).state != r.before.state)
              && WaitOf(n, r, s, wait) == if AsksBreaker(n, r, s) then wait else None
  {
  }

  lemma GatedStays<K>(n: Native, r: Record, s: LiveState, env: Env, k: K, now: nat, before: map<K, Schedule.Breaker>, after: map<K, Schedule.Breaker>, out: Outcome<Verdict>)
    requires out == Done(if OwnsClaim(n, r, s) then StillOurs else Postponed)
    requires !OwnsClaim(n, r, s) ==> StateMatches(Last(n).state, r.desired) || (AsksBreaker(n, r, s) && GateOf(before, k, now).1.Some?)
    requires after == if AsksBreaker(n, r, s) then before[k := GateOf(before, k, now).0] else before
    ensures Gated(n, r, s, n, r, s, env, out, k, now, before, after)
  {
    hide Schedule.Gate;
  }

  lemma GatedOverlaid<K>(a: Native, ra: Record, sa: LiveState, expected: Snapshot, base: Snapshot, b: Native, rb: Record, sb: LiveState, env: Env, k: K, now: nat, before: map<K, Schedule.Breaker>, after: map<K, Schedule.Breaker>, out: Outcome<Verdict>)
    requires Overlaid(a, b, expected, base, rb, sb, env, out) && (!out.Died? ==> SameIntent(rb, ra))
    requires !OwnsClaim(a, ra, sa) && !StateMatches(Last(a).state, ra.desired)
    requires AsksBreaker(a, ra, sa) ==> GateOf(before, k, now).1.None?
    requires !AsksBreaker(a, ra, sa) ==> base == ra.before
    requires after == if AsksBreaker(a, ra, sa) then before[k := GateOf(before, k, now).0] else before
    ensures Gated(a, ra, sa, b, rb, sb, env, out, k, now, before, after) && Later(a, b) && out != Done(Postponed) && out != Done(StillOurs)
  {
    hide Schedule.Gate, AsksBreaker, OwnsClaim;
  }

  lemma ActiveMayResolve(n: Native, files: Files, r: Record, s: LiveState)
    requires DurableOk(n, files) && LiveOk(n, files, r, s, true)
    ensures MayResolve(n, files, r, s)
  {
    ExternalIsBase(n);
  }

  /** What is known of a stable present state. */
  lemma StableFacts(n: Native, files: Files, r: Record, s: LiveState)
    requires DurableOk(n, files) && LiveOk(n, files, r, s, true) && s in {Committed, Unmutated} && n.present
    ensures s == Committed && r.applied == Some(Current(n)) ==> StateMatches(Last(n).state, r.desired)
    ensures !OwnsClaim(n, r, s) && !StateMatches(Last(n).state, r.desired) ==> !Overlay(n) && Evidence(n, Current(n), Last(n).state)
    ensures Evidence(n, r.before, r.before.state)
    ensures s == Committed ==> r.applied.Some?
    ensures s == Unmutated ==> !OwnsClaim(n, r, s)
    ensures OwnsClaim(n, r, s) <==> s == Committed && r.applied == Some(Current(n))
  {
    if s == Committed && Overlay(n) {
      assert Faithful(n, r.applied.value);
    }
  }

  lemma PassStays(n: Native, r: Record, s: LiveState, env: Env, out: Outcome<Verdict>)
    requires out in {Done(StillOurs), Done(Postponed)} && n.present
    requires out == Done(StillOurs) <==> OwnsClaim(n, r, s) && s == Committed
    requires out == Done(StillOurs) ==> StateMatches(Last(n).state, r.desired)
    ensures Pass(n, r, s, n, r, s, env, out)
  {
    Stutter(n);
  }

  lemma PassOverlaid(a: Native, ra: Record, sa: LiveState, expected: Snapshot, before: Snapshot, b: Native, rb: Record, sb: LiveState, env: Env, out: Outcome<Verdict>)
    requires !StateMatches(Last(a).state, ra.desired)
    requires Overlaid(a, b, expected, before, rb, sb, env, out)
    requires !out.Died? ==> SameIntent(rb, ra)
    ensures Pass(a, ra, sa, b, rb, sb, env, out)
  {
  }

  lemma PassUnresolved(a: Native, ra: Record, sa: LiveState, b: Native, rb: Record, sb: LiveState, env: Env, resolved: Outcome<()>, out: Outcome<Verdict>)
    requires Resolution(a, ra, sa, b, rb, sb, env, None, resolved) && !resolved.Done?
    requires out == Done(Postponed) || out == Done(Unsuccessful) || (out == Died && env.crashes)
    requires sa in {Committed, Unmutated} ==> resolved.Done?
    ensures Pass(a, ra, sa, b, rb, sb, env, out)
  {
  }

  lemma PassResolved(a: Native, ra: Record, sa: LiveState, b: Native, rb: Record, sb: LiveState, c: Native, d: Native, rd: Record, sd: LiveState, env: Env, resolved: Outcome<()>, out: Outcome<Verdict>)
    requires Resolution(a, ra, sa, b, rb, sb, env, None, resolved) && resolved.Done?
    requires sa in {Committed, Unmutated} ==> sb == sa
    requires Foreign(b, c) && (!env.externals ==> c == b)
    requires Pass(c, rb, sb, d, rd, sd, env, out) || (d == c && rd == rb && sd == sb && Interrupted(b, c, env, out))
    ensures Pass(a, ra, sa, d, rd, sd, env, out)
  {
    ForeignIsLater(b, c);
    LaterTransitive(a, b, c);
    LaterTransitive(a, c, d);
  }

  /** One scheduled reconciliation of a resource: incarnation first, then a
      pass, then the next time to look at it. */
  method ReconcileResource<K>(env: Env, live: LiveRecord, reconciler: Schedule.Reconciler<K>, k: K, now: nat) returns (r: Outcome<Verdict>)
    requires live.Valid()
    modifies live`record, live`state, live`registered, live.res`native, live.res`files, reconciler
    ensures DurableOk(live.res.native, live.res.files)
    ensures !r.Died? ==> live.Valid() && SameIntent(live.record, old(live.record))
    ensures !r.Died? ==> (live.registered <==> r != Done(NoActiveLease))
    ensures !old(live.registered) ==> r == Done(NoActiveLease) && live.res.native == old(live.res.native) && live.res.files == old(live.res.files)
    ensures old(live.registered) ==> Pass(old(live.res.native), old(live.record), old(live.state), live.res.native, live.record, live.state, env, r)
    ensures r.Died? ==> env.crashes
    ensures !old(live.registered) || r == Done(NoActiveLease) ==> k !in reconciler.breaker
    ensures r != Done(NoActiveLease) ==>
              Gated(old(live.res.native), old(live.record), old(live.state), live.res.native, live.record, live.state, env, r, k, now, old(reconciler.breaker), reconciler.breaker)
    ensures Rescheduled(old(reconciler.pending), reconciler.pending, k, now, r)
  {
    hide WfNative, DurableOk, LiveOk, Foreign, Later, Pass, Gated, Rescheduled;
    ghost var waiting := reconciler.pending;
    if !live.registered {
      reconciler.Remove(k);
      RemovedIsRescheduled(waiting, reconciler.pending, k, now);
      return Done(NoActiveLease);
    }
    r := ReconcileActive(env, live, reconciler, k, now);
  }

  /** The same for a resource whose lease is active. */
  method ReconcileActive<K>(env: Env, live: LiveRecord, reconciler: Schedule.Reconciler<K>, k: K, now: nat) returns (r: Outcome<Verdict>)
    requires live.Valid() && live.registered
    modifies live`record, live`state, live`registered, live.res`native, live.res`files, reconciler
    ensures DurableOk(live.res.native, live.res.files)
    ensures !r.Died? ==> live.Valid() && SameIntent(live.record, old(live.record))
    ensures !r.Died? ==> (live.registered <==> r != Done(NoActiveLease))
    ensures Pass(old(live.res.native), old(live.record), old(live.state), live.res.native, live.record, live.state, env, r)
    ensures r.Died? ==> env.crashes
    ensures r == Done(NoActiveLease) ==> k !in reconciler.breaker
    ensures r != Done(NoActiveLease) ==>
              Gated(old(live.res.native), old(live.record), old(live.state), live.res.native, live.record, live.state, env, r, k, now, old(reconciler.breaker), reconciler.breaker)
    ensures Rescheduled(old(reconciler.pending), reconciler.pending, k, now, r)
  {
    hide WfNative, DurableOk, LiveOk, Foreign, Later, Pass, Gated, Rescheduled;
    ghost var waiting := reconciler.pending;
    var generation := Schedule.GenerationOf(reconciler.Waiting(k));
    ghost var a, ra, sa, breaker := live.res.native, live.record, live.state, reconciler.breaker;
    var status := live.res.Status(env, live.record.identity);
    ghost var b := live.res.native;
    ValidUnderForeign(a, b, live.res.files, ra, sa, true);
    if status != Done(Same) {
      r := Unavailable(env, live, reconciler, k, now, status);
      NotStarted(a, ra, sa, b, env, status, r, k, now, reconciler.breaker);
      return;
    }
    r := ReconcilePass(env, live, reconciler, k, now);
    PassAfterStatus(a, b, ra, sa, live.res.native, live.record, live.state, env, r);
    if r != Done(NoActiveLease) {
      GatedSince(a, b, ra, sa, live.res.native, live.record, live.state, env, r, k, now, breaker, reconciler.breaker);
    }
    Reschedule(reconciler, k, generation, r, now, waiting);
  }

  lemma NotStarted<K>(a: Native, r: Record, s: LiveState, b: Native, env: Env, status: Outcome<ResourceStatus>, out: Outcome<Verdict>, k: K, now: nat, breaker: map<K, Schedule.Breaker>)
    requires Foreign(a, b) && (!env.externals ==> b == a)
    requires out in {Done(NoActiveLease), Done(IdentityAmbiguous), Done(Unsuccessful), Died}
    requires out == Done(NoActiveLease) ==> StatusOf(b, r.identity) != Same
    requires out in {Done(IdentityAmbiguous), Done(Unsuccessful)} ==> env.failures
    requires out.Died? ==> env.crashes
    ensures Pass(a, r, s, b, r, s, env, out)
    ensures out != Done(NoActiveLease) ==> Gated(a, r, s, b, r, s, env, out, k, now, breaker, breaker)
  {
    PassNotStarted(a, r, s, b, env, out);
    if out != Done(NoActiveLease) {
      GatedNotStarted(a, r, s, b, env, status, out, k, now, breaker);
    }
  }

  /** The least time until the next look after holding off. */
  function RetryAfter(v: Verdict): nat {
    if v == IdentityAmbiguous then Schedule.IDENTITY_RETRY else Schedule.UNSTABLE_RETRY
  }

  /** The verdict on a resource that is not the leased native object, or that
      cannot be told to be. */
  method Unavailable<K>(env: Env, live: LiveRecord, reconciler: Schedule.Reconciler<K>, k: K, now: nat, status: Outcome<ResourceStatus>) returns (r: Outcome<Verdict>)
    requires live.Valid() && live.registered
    requires status.Done? ==> status.value != Same && (status.value == StatusOf(live.res.native, live.record.identity) || (env.failures && status.value == Ambiguous))
    requires (status.Fail? ==> env.failures) && (status.Died? ==> env.crashes)
    modifies live`registered, live.res`files, reconciler
    ensures live.Valid()
    ensures !r.Died? ==> (live.registered <==> r != Done(NoActiveLease))
    ensures r in {Done(NoActiveLease), Done(IdentityAmbiguous), Done(Unsuccessful), Died}
    ensures r == Done(NoActiveLease) ==> k !in reconciler.breaker && StatusOf(live.res.native, live.record.identity) != Same
    ensures r in {Done(IdentityAmbiguous), Done(Unsuccessful)} ==> env.failures
    ensures Rescheduled(old(reconciler.pending), reconciler.pending, k, now, r)
    ensures r != Done(NoActiveLease) ==> reconciler.breaker == old(reconciler.breaker)
    ensures r.Died? <==> status.Died? || (status.Done? && status.value != Ambiguous && r.Died?)
    ensures !env.failures && (status.Done? ==> status.value != Ambiguous) ==> r in {Done(NoActiveLease), Died}
    ensures r.Died? ==> env.crashes
  {
    hide DurableOk, LiveOk;
    if status.Died? {
      r := Died;
    } else if status.Fail? {
      reconciler.DeferAt(k, Schedule.ERROR_RETRY, true, now);
      r := Done(Unsuccessful);
    } else if status.value == Ambiguous {
      reconciler.DeferAt(k, Schedule.IDENTITY_RETRY, false, now);
      r := Done(IdentityAmbiguous);
    } else {
      r := DropRecord(env, live, reconciler, k);
      if r == Done(Unsuccessful) {
        reconciler.DeferAt(k, Schedule.ERROR_RETRY, true, now);
      }
    }
  }

  /** What a verdict does to the schedule: a conclusive one leaves the resource
      waiting only for events that arrived meanwhile, an inconclusive one for at least
      the time it asks for, and a failure counts. */
  predicate Rescheduled<K>(before: map<K, Schedule.Entry>, after: map<K, Schedule.Entry>, k: K, now: nat, out: Outcome<Verdict>) {
    var entry := if k in before then Some(before[k]) else None;
    match out
    case Done(NoActiveLease) => k !in after
    case Done(StillOurs) => k in after ==> after[k].readyAt == now && after[k].generation != Schedule.GenerationOf(entry)
    case Done(Rebased) => k in after ==> after[k].readyAt == now && after[k].generation != Schedule.GenerationOf(entry)
    case Done(Unsuccessful) => after == before[k := Schedule.Deferred(entry, Schedule.ERROR_RETRY, true, now)]
    case Done(v) => k in after && now + RetryAfter(v) <= after[k].readyAt && after[k].errors == 0
    case _ => true
  }

  lemma RemovedIsRescheduled<K>(before: map<K, Schedule.Entry>, after: map<K, Schedule.Entry>, k: K, now: nat)
    requires k !in after
    ensures Rescheduled(before, after, k, now, Done(NoActiveLease))
  {
  }

  /** When to look at the resource again. The pass itself has scheduled nothing,
      unless it held off. */
  method Reschedule<K>(reconciler: Schedule.Reconciler<K>, k: K, generation: nat, out: Outcome<Verdict>, now: nat, ghost before: map<K, Schedule.Entry>)
    requires !out.Fail? && out != Done(IdentityAmbiguous)
    requires out == Done(NoActiveLease) ==> k !in reconciler.pending
    requires out !in {Done(Postponed), Done(NoActiveLease)} ==> reconciler.pending == before
    requires generation == if k in before then before[k].generation else 0
    modifies reconciler`pending
    ensures Rescheduled(before, reconciler.pending, k, now, out)
  {
    match out {
      case Done(NoActiveLease) => reconciler.CompleteUnlessTouched(k, generation, now);
      case Done(StillOurs) => reconciler.CompleteUnlessTouched(k, generation, now);
      case Done(Rebased) => reconciler.CompleteUnlessTouched(k, generation, now);
      case Done(Postponed) => reconciler.DeferAt(k, Schedule.UNSTABLE_RETRY, false, now);
      case Done(Unsuccessful) => reconciler.DeferAt(k, Schedule.ERROR_RETRY, true, now);
      case _ =>
    }
  }

  lemma PassNotStarted(a: Native, r: Record, s: LiveState, b: Native, env: Env, out: Outcome<Verdict>)
    requires Foreign(a, b) && (!env.externals ==> b == a)
    requires out in {Done(NoActiveLease), Done(IdentityAmbiguous), Done(Unsuccessful), Died}
    requires out == Done(NoActiveLease) ==> StatusOf(b, r.identity) != Same
    requires out in {Done(IdentityAmbiguous)} ==> env.failures
    requires out == Done(Unsuccessful) ==> env.failures
    requires out.Died? ==> env.crashes
    ensures Pass(a, r, s, b, r, s, env, out)
  {
    ForeignIsLater(a, b);
  }

  lemma PassAfterStatus(a: Native, b: Native, ra: Record, sa: LiveState, c: Native, rc: Record, sc: LiveState, env: Env, out: Outcome<Verdict>)
    requires Foreign(a, b) && (!env.externals ==> b == a)
    requires Pass(b, ra, sa, c, rc, sc, env, out)
    ensures Pass(a, ra, sa, c, rc, sc, env, out)
  {
    ForeignIsLater(a, b);
    LaterTransitive(a, b, c);
  }

  lemma GatedSince<K>(a: Native, b: Native, ra: Record, sa: LiveState, c: Native, rc: Record, sc: LiveState, env: Env, out: Outcome<Verdict>, k: K, now: nat, before: map<K, Schedule.Breaker>, after: map<K, Schedule.Breaker>)
    requires Foreign(a, b) && Pass(b, ra, sa, c, rc, sc, env, out)
    requires Gated(b, ra, sa, c, rc, sc, env, out, k, now, before, after)
    ensures Gated(a, ra, sa, c, rc, sc, env, out, k, now, before, after)
  {
    ForeignIsCounted(a, b);
  }

  lemma PassIsLater(a: Native, b: Native, ra: Record, sa: LiveState, c: Native, rc: Record, sc: LiveState, env: Env, out: Outcome<Verdict>)
    requires Foreign(a, b) && (Pass(b, ra, sa, c, rc, sc, env, out) || c == b)
    ensures a.foreign <= c.foreign
  {
    ForeignIsCounted(a, b);
  }

  lemma GatedNotStarted<K>(a: Native, r: Record, s: LiveState, b: Native, env: Env, status: Outcome<ResourceStatus>, out: Outcome<Verdict>, k: K, now: nat, breaker: map<K, Schedule.Breaker>)
    requires Foreign(a, b) && out in {Done(IdentityAmbiguous), Done(Unsuccessful), Died}
    requires out.Done? ==> env.failures
    ensures Gated(a, r, s, b, r, s, env, out, k, now, breaker, breaker)
  {
  }
}
