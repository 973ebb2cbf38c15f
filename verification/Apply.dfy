/** Applying a plan to captured resources: all records first, then the writes one
    by one, and after a failure the way back for each resource that was reached. */
module Applying {
  import opened Dns
  import opened World
  import opened Durable
  import opened Backend
  import opened Engine
  import opened Live
  import opened Lifecycle
  import opened Restoring

  predicate Distinct<T(==)>(s: seq<T>) {
    forall i, j :: 0 <= i < j < |s| ==> s[i] != s[j]
  }

  function ResourcesOf(live: seq<LiveRecord>): (r: seq<Resource>)
    ensures |r| == |live|
    ensures forall i :: 0 <= i < |live| ==> r[i] == live[i].res
  {
    seq(|live|, i requires 0 <= i < |live| => live[i].res)
  }

  /** No two live records are the same or name the same resource. */
  predicate Apart(live: seq<LiveRecord>) {
    forall i, j :: 0 <= i < j < |live| ==> live[i] != live[j] && live[i].res != live[j].res
  }

  lemma OthersApart(live: seq<LiveRecord>, k: nat)
    requires Apart(live) && k < |live|
    ensures forall i :: 0 <= i < |live| && i != k ==> live[i] != live[k] && live[i].res != live[k].res
  {
  }

  /** A resource that was captured as `r.before`, shows no overlay, and that no
      record claims yet. */
  predicate Captured(n: Native, r: Record) {
    && RecordOk(n, r)
    && Covers(n, r)
    && Settled(n, r.before.state)
    && !Overlay(n)
    && !n.disclaimed
  }

  /** How a failed apply leaves a resource: either the record is still there to
      undo it, or nothing is left to undo. Where nobody else wrote and nothing
      failed, the resource is back at its original state without a record. `a`
      is the native state at the start. */
  predicate Left(a: Native, b: Native, files: Files, r: Record, env: Env) {
    && DurableOk(b, files)
    && Later(a, b)
    && (forall l :: l in files ==> l == r.lease && files[l].before == r.before && files[l].identity == r.identity)
    && (files == map[] ==> Settled(b, r.before.state))
    && (files == map[] && b.foreign == a.foreign && Owns(a, r.before) ==> b.present && Last(b).state == r.before.state)
    && (Quiet(env, a, b) && AsCaptured(a, r) ==> files == map[])
  }

  /** The resource is still as it was captured. */
  predicate AsCaptured(n: Native, r: Record) {
    Owns(n, r.before) && StatusOf(n, r.identity) == Same
  }

  /** The errors that cleaning up one resource added. */
  datatype Cleanup = Clean(errors: seq<Error>) | Cut

  /** A resource that is not mutated, and whose intent may or may not be published. */
  ghost predicate Untouched(a: Native, res: Resource, r: Record)
    reads res
  {
    && DurableOk(res.native, res.files)
    && res.native == a
    && (forall l :: l in res.files ==> l == r.lease && res.files[l] == r)
    && Captured(a, r)
  }

  ghost predicate Intended(a: Native, res: Resource, r: Record)
    reads res
  {
    && Untouched(a, res, r)
    && res.files == map[r.lease := r]
  }

  /** A resource whose mutation was verified and not yet published. */
  ghost predicate Mutated(a: Native, res: Resource, r: Record, m: VerifiedMutation)
    reads res
  {
    && DurableOk(res.native, res.files)
    && res.files == map[r.lease := r]
    && LiveOk(res.native, res.files, r, LiveState.Verified(m), true)
    && Later(a, res.native)
    && (res.native.foreign == a.foreign ==> Owns(res.native, m.observed) && StatusOf(res.native, r.identity) == Same)
  }

  /** Publishes one intent. */
  method PersistOne(env: Env, res: Resource, record: Record) returns (r: Outcome<()>)
    requires Untouched(res.native, res, record) && res.files == map[]
    modifies res`files
    ensures Untouched(res.native, res, record)
    ensures r.Done? ==> Intended(res.native, res, record)
    ensures r.Fail? ==> env.failures
    ensures r.Died? ==> env.crashes
  {
    DurableUnderPublish(res.native, res.files, record);
    r := res.JournalWrite(env, record);
  }

  /** Withdraws one intent that was never acted on. */
  method WithdrawOne(env: Env, res: Resource, record: Record) returns (r: Cleanup)
    requires Untouched(res.native, res, record)
    modifies res`files
    ensures Untouched(res.native, res, record)
    ensures r.Cut? ==> env.crashes
    ensures r.Clean? && !env.failures ==> r.errors == []
    ensures r.Clean? && r.errors == [] ==> res.files == map[]
  {
    DurableUnderRemove(res.native, res.files, record.lease);
    var removed := res.JournalRemove(env, record.lease);
    match removed {
      case Done(_) =>
        assert res.files.Keys == {};
        r := Clean([]);
      case Fail(error) => r := Clean([error]);
      case Died => r := Cut;
    }
  }

  /** A resource whose mutation failed and was, if possible, rolled back. */
  ghost predicate Residual(a: Native, res: Resource, r: Record, residue: Residue, env: Env)
    reads res
  {
    && DurableOk(res.native, res.files)
    && res.files == map[r.lease := r]
    && Later(a, res.native)
    && Captured(a, r)
    && ResidueOk(a, res.native, res.files, r.identity, None, r.before, r.before.state, residue, env)
    && !(Quiet(env, a, res.native) && AsCaptured(a, r))
  }

  lemma MutatedFrom(a: Native, b: Native, files: Files, r: Record, m: VerifiedMutation, env: Env)
    requires DurableOk(a, files) && Captured(a, r) && files == map[r.lease := r] && r.phase.Prepared? && r.applied.None?
    requires DurableOk(b, files) && Later(a, b)
    requires VerifiedOk(a, b, files, r.before, r.desired, r.before.state, m, env)
    ensures LiveOk(b, files, r, LiveState.Verified(m), true)
    ensures b.foreign == a.foreign ==> Owns(b, m.observed) && StatusOf(b, r.identity) == Same
  {
    RecordStays(a, b, r);
    ExternalIsBase(b);
    assert files == map[r.lease := r];
  }

  method MutateOne(env: Env, res: Resource, record: Record) returns (r: Mutation)
    requires Intended(res.native, res, record) && record.phase.Prepared? && record.applied.None?
    modifies res`native
    ensures DurableOk(res.native, res.files)
    ensures r.Verified? ==> Mutated(old(res.native), res, record, r.mutation)
    ensures r.Failed? ==> Residual(old(res.native), res, record, r.residue, env)
    ensures Quiet(env, old(res.native), res.native) && Owns(old(res.native), record.before) && StatusOf(old(res.native), record.identity) == Same ==> !r.Failed?
    ensures !env.externals ==> res.native.foreign == old(res.native).foreign
    ensures r.Lost? ==> env.crashes
  {
    hide WfNative, DurableOk, LiveOk, Later, ResidueOk, VerifiedOk;
    ghost var a := res.native;
    IntendedParts(a, res.files, record);
    r := MutateAndVerify(env, res, record.identity, record.before, record.desired, record.lease, record.before.state);
    if r.Verified? {
      MutatedFrom(a, res.native, res.files, record, r.mutation, env);
    }
  }

  lemma IntendedParts(a: Native, files: Files, r: Record)
    requires Captured(a, r) && files == map[r.lease := r]
    ensures HasFile(files, r.lease, r.before.state, r.identity)
    ensures Evidence(a, r.before, r.before.state)
  {
  }

  lemma LeftUnder(a: Native, b: Native, files: Files, f: Files, r: Record, r': Record, env: Env)
    requires DurableOk(b, files) && Later(a, b)
    requires !(Quiet(env, a, b) && AsCaptured(a, r))
    requires files == map[r.lease := r] && RecordOk(b, r) && Covers(b, r)
    requires r' == r.(phase := Phase.Prepared, applied := r'.applied) && EvidenceIfAny(b, r'.applied, r.before.state)
    requires f == files || f == files[r.lease := r']
    ensures Left(a, b, f, r, env) && DurableOk(b, f)
  {
    if f == files[r.lease := r'] {
      DurableUnderPublish(b, files, r');
      assert f == map[r.lease := r'];
      assert r.lease in f;
    } else {
      assert r.lease in f;
    }
  }

  lemma LeftAfterRemoval(a: Native, b: Native, files: Files, f: Files, r: Record, env: Env)
    requires DurableOk(b, files) && Later(a, b)
    requires forall l :: l in files ==> l == r.lease && files[l] == r
    requires RecordOk(b, r) && Covers(b, r)
    requires Settled(b, r.before.state)
    requires b.foreign == a.foreign && Owns(a, r.before) ==> b.present && Last(b).state == r.before.state
    requires f == files || f == files - {r.lease}
    ensures DurableOk(b, f)
    ensures env.failures || f == files - {r.lease} ==> Left(a, b, f, r, env)
  {
    SettledIsClean(b, r);
    DurableUnderRemove(b, files, r.lease);
  }

  /** Publishes what is known about a resource that could not be rolled back. */
  method RetainOne(env: Env, res: Resource, record: Record, pending: Pending, ghost a: Native) returns (r: Cleanup)
    requires DurableOk(res.native, res.files) && res.files == map[record.lease := record] && Later(a, res.native)
    requires RecordOk(res.native, record) && Covers(res.native, record)
    requires PendingOk(res.native, pending, record.before.state)
    requires record.phase.Prepared? && !(Quiet(env, a, res.native) && AsCaptured(a, record))
    modifies res`files
    ensures Left(a, res.native, res.files, record, env) && DurableOk(res.native, res.files)
    ensures r.Cut? ==> env.crashes
  {
    hide WfNative, DurableOk, Later, RecordOk, Covers, Left;
    ghost var files := res.files;
    var retained := record.(applied := pending.evidence);
    var written := res.JournalWrite(env, retained);
    LeftUnder(a, res.native, files, res.files, record, retained, env);
    r := match written
      case Done(_) => Clean([])
      case Fail(error) => Clean([error])
      case Died => Cut;
  }

  /** Removes the record of a resource that is back at its original state. */
  method ForgetOne(env: Env, res: Resource, record: Record, ghost a: Native) returns (r: Cleanup)
    requires DurableOk(res.native, res.files) && Later(a, res.native)
    requires forall l :: l in res.files ==> l == record.lease && res.files[l] == record
    requires RecordOk(res.native, record) && Covers(res.native, record) && Settled(res.native, record.before.state)
    requires res.native.foreign == a.foreign && Owns(a, record.before) ==> res.native.present && Last(res.native).state == record.before.state
    modifies res`files
    ensures DurableOk(res.native, res.files)
    ensures r.Clean? ==> Left(a, res.native, res.files, record, env)
    ensures r.Cut? ==> env.crashes
  {
    hide WfNative, DurableOk, Later, RecordOk, Covers, Left, Settled;
    ghost var files := res.files;
    var removed := res.JournalRemove(env, record.lease);
    LeftAfterRemoval(a, res.native, files, res.files, record, env);
    r := match removed
      case Done(_) => Clean([])
      case Fail(error) => Clean([error])
      case Died => Cut;
  }

  /** Undoes the mutation of an earlier resource. */
  method UndoOne(env: Env, res: Resource, record: Record, mutation: VerifiedMutation, ghost a: Native) returns (r: Cleanup)
    requires Mutated(a, res, record, mutation) && record.phase.Prepared?
    modifies res`native, res`files
    ensures DurableOk(res.native, res.files)
    ensures r.Clean? ==> Left(a, res.native, res.files, record, env)
    ensures r.Cut? ==> env.crashes
  {
    hide WfNative, DurableOk, LiveOk, Later, ResidueOk, Left, PendingOk, MayUndo, RecordOk, Covers;
    ghost var b := res.native;
    MutatedParts(b, res.files, record, mutation);
    var undone := RollbackProven(env, res, record.identity, Some(mutation.Persist()), record.before, record.lease, record.before.state);
    ghost var c := res.native;
    LaterTransitive(a, b, c);
    RecordStays(b, c, record);
    FileCovers(c, res.files, record);
    match undone {
      case Died => return Cut;
      case Done(residue) =>
        UndoneParts(a, b, c, res.files, record, mutation, residue, env);
        if residue.Unresolved? {
          r := RetainOne(env, res, record, residue.pending, a);
          if r.Clean? {
            r := Clean(r.errors + [IndeterminateMutation]);
          }
        } else {
          r := ForgetOne(env, res, record, a);
        }
    }
  }

  lemma FileCovers(n: Native, files: Files, r: Record)
    requires DurableOk(n, files) && files == map[r.lease := r]
    ensures Covers(n, r) && RecordOk(n, r)
  {
    assert r.lease in files && files[r.lease] == r;
  }

  lemma MutatedParts(n: Native, files: Files, r: Record, m: VerifiedMutation)
    requires DurableOk(n, files) && files == map[r.lease := r]
    requires LiveOk(n, files, r, LiveState.Verified(m), true)
    ensures m.Persist() == m.observed
    ensures PendingOk(n, Pending(Some(m.Persist()), r.before), r.before.state)
    ensures MayUndo(n, files, Pending(Some(m.Persist()), r.before), r.lease, r.before.state, r.identity)
    ensures RecordOk(n, r)
  {
  }

  lemma UndoneParts(a: Native, b: Native, c: Native, files: Files, r: Record, m: VerifiedMutation, residue: Residue, env: Env)
    requires Later(a, b) && Later(b, c)
    requires b.foreign == a.foreign ==> StatusOf(b, r.identity) == Same && Owns(b, m.Persist())
    requires !residue.Unchanged?
    requires Quiet(env, b, c) && StatusOf(b, r.identity) == Same && OwnsIfAny(b, Some(m.Persist())) ==> residue.Restored?
    requires ResidueOk(b, c, files, r.identity, Some(m.Persist()), r.before, r.before.state, residue, env)
    ensures residue.Unresolved? ==> PendingOk(c, residue.pending, r.before.state) && !Quiet(env, a, c)
    ensures residue.Restored? ==> Settled(c, r.before.state)
    ensures residue.Restored? && c.foreign == a.foreign ==> c.present && Last(c).state == r.before.state
  {
  }

  /** Cleans up the resource whose mutation failed. */
  method CleanFailed(env: Env, res: Resource, record: Record, residue: Residue, ghost a: Native) returns (r: Cleanup)
    requires Residual(a, res, record, residue, env) && record.phase.Prepared?
    modifies res`native, res`files
    ensures DurableOk(res.native, res.files)
    ensures r.Clean? ==> Left(a, res.native, res.files, record, env)
    ensures r.Cut? ==> env.crashes
  {
    hide WfNative, DurableOk, Later, ResidueOk, Left, PendingOk, RecordOk, Covers, Foreign;
    ghost var b := res.native;
    FileCovers(b, res.files, record);
    if residue.Unresolved? {
      UnresolvedParts(a, b, res.files, record, residue, env);
      r := RetainOne(env, res, record, residue.pending, a);
      return;
    }
    var reading := res.Readback(env);
    ghost var c := res.native;
    DurableUnderForeign(b, c, res.files);
    LaterTransitive(a, b, c);
    FileCovers(c, res.files, record);
    if Quiet(env, a, c) {
      StillNotQuiet(a, b, c, env);
    }
    match reading {
      case Died => return Cut;
      case Fail(_) =>
        KeptIsLeft(a, c, res.files, record, env);
        r := Clean([]);
      case Done(now) =>
        if now.state == record.before.state {
          r := ForgetOne(env, res, record, a);
        } else {
          KeptIsLeft(a, c, res.files, record, env);
          r := Clean([]);
        }
    }
  }

  lemma StillNotQuiet(a: Native, b: Native, c: Native, env: Env)
    requires Later(a, b) && Foreign(b, c) && Quiet(env, a, c)
    ensures Quiet(env, a, b)
  {
    ForeignIsCounted(b, c);
  }

  lemma UnresolvedParts(a: Native, b: Native, files: Files, r: Record, residue: Residue, env: Env)
    requires residue.Unresolved?
    requires ResidueOk(a, b, files, r.identity, None, r.before, r.before.state, residue, env)
    ensures PendingOk(b, residue.pending, r.before.state)
  {
  }

  lemma KeptIsLeft(a: Native, b: Native, files: Files, r: Record, env: Env)
    requires !(Quiet(env, a, b) && AsCaptured(a, r))
    requires DurableOk(b, files) && Later(a, b) && files == map[r.lease := r]
    ensures Left(a, b, files, r, env)
  {
    assert r.lease in files;
  }

  // ----- the transaction over all resources

  function TransactionError(primary: Error, cleanup: seq<Error>): Error {
    if cleanup == [] then primary else TransactionFailed(primary, cleanup)
  }

  /** Publishes every intent, or withdraws all that may have become visible. */
  method PersistUnmutated(env: Env, resources: seq<Resource>, records: seq<Record>) returns (r: Outcome<()>)
    requires Distinct(resources) && |records| == |resources|
    requires forall i :: 0 <= i < |resources| ==> Untouched(resources[i].native, resources[i], records[i]) && resources[i].files == map[]
    modifies resources`files
    ensures forall i :: 0 <= i < |resources| ==> Untouched(resources[i].native, resources[i], records[i])
    ensures r.Done? ==> forall i :: 0 <= i < |resources| ==> Intended(resources[i].native, resources[i], records[i])
    ensures r.Fail? ==> env.failures
    ensures r.Fail? && !r.error.TransactionFailed? ==> forall i :: 0 <= i < |resources| ==> resources[i].files == map[]
    ensures r.Died? ==> env.crashes
  {
    hide Untouched, Intended;
    for k := 0 to |resources|
      invariant forall i :: 0 <= i < |resources| ==> Untouched(resources[i].native, resources[i], records[i])
      invariant forall i :: 0 <= i < k ==> Intended(resources[i].native, resources[i], records[i])
      invariant forall i :: k <= i < |resources| ==> resources[i].files == map[]
    {
      var published := PersistOne(env, resources[k], records[k]);
      if published.Died? {
        return Died;
      }
      if published.Fail? {
        var cleanup: seq<Error> := [];
        for j := 0 to k + 1
          invariant forall i :: 0 <= i < |resources| ==> Untouched(resources[i].native, resources[i], records[i])
          invariant forall i :: k < i < |resources| ==> resources[i].files == map[]
          invariant cleanup == [] ==> forall i :: 0 <= i < j ==> resources[i].files == map[]
        {
          var withdrawn := WithdrawOne(env, resources[j], records[j]);
          if withdrawn.Cut? {
            return Died;
          }
          cleanup := cleanup + withdrawn.errors;
        }
        return Fail(TransactionError(published.error, cleanup));
      }
    }
    r := Done(());
  }

  datatype MutateOutcome =
    | AllVerified
    | OneFailed(error: Error, residue: Residue)
    | Stopped

  /** Mutates and verifies one resource after the other, up to a failure. */
  method MutateAll(env: Env, resources: seq<Resource>, records: seq<Record>, ghost starts: seq<Native>)
    returns (done: seq<VerifiedMutation>, r: MutateOutcome)
    requires Distinct(resources) && |records| == |resources| == |starts|
    requires forall i :: 0 <= i < |resources| ==> resources[i].native == starts[i] && Intended(starts[i], resources[i], records[i]) && Fresh(records[i])
    modifies resources`native
    ensures r.Stopped? ==> env.crashes && forall i :: 0 <= i < |resources| ==> DurableOk(resources[i].native, resources[i].files)
    ensures !r.Stopped? ==> |done| <= |resources| && (r.AllVerified? <==> |done| == |resources|)
    ensures r.AllVerified? ==> forall i :: 0 <= i < |done| ==> Mutated(starts[i], resources[i], records[i], done[i])
    ensures r.OneFailed? ==> Broken(resources, records, done, r.residue, starts, env)
    ensures !env.externals ==> forall i :: 0 <= i < |resources| ==> resources[i].native.foreign == starts[i].foreign
    ensures Calm(env) && (forall i :: 0 <= i < |resources| ==> AsCaptured(starts[i], records[i])) ==> !r.OneFailed?
  {
    hide Intended, Mutated, Residual, DurableOk, Owns;
    done := [];
    IntendedIsDurable(resources, records, 0, starts);
    for k := 0 to |resources|
      invariant |done| == k
      invariant forall i :: 0 <= i < k ==> Mutated(starts[i], resources[i], records[i], done[i])
      invariant forall i :: 0 <= i < |resources| ==> DurableOk(resources[i].native, resources[i].files)
      invariant forall i :: k <= i < |resources| ==> resources[i].native == starts[i] && Intended(starts[i], resources[i], records[i])
      invariant !env.externals ==> forall i :: 0 <= i < |resources| ==> resources[i].native.foreign == starts[i].foreign
    {
      var mutation := MutateOne(env, resources[k], records[k]);
      match mutation {
        case Lost => return done, Stopped;
        case Failed(error, residue) => return done, OneFailed(error, residue);
        case Verified(m) => done := done + [m];
      }
    }
    r := AllVerified;
  }

  predicate Fresh(r: Record) { r.phase.Prepared? && r.applied.None? }

  /** The resources after a failed mutation: the first ones are mutated, one
      failed, and the rest was not reached. */
  ghost predicate Broken(resources: seq<Resource>, records: seq<Record>, done: seq<VerifiedMutation>, residue: Residue, starts: seq<Native>, env: Env)
    requires |records| == |resources| == |starts| && |done| < |resources|
    reads resources
  {
    && (forall i :: 0 <= i < |done| ==> Mutated(starts[i], resources[i], records[i], done[i]))
    && Residual(starts[|done|], resources[|done|], records[|done|], residue, env)
    && (forall i :: |done| < i < |resources| ==> Intended(starts[i], resources[i], records[i]))
  }

  /** Undoes the first resources, cleans up the failed one and withdraws the
      intents of those that were not reached. */
  method CleanUp(env: Env, resources: seq<Resource>, records: seq<Record>, done: seq<VerifiedMutation>, residue: Residue, ghost starts: seq<Native>)
    returns (r: Cleanup)
    requires Distinct(resources) && |records| == |resources| == |starts| && |done| < |resources|
    requires forall i :: 0 <= i < |resources| ==> Fresh(records[i])
    requires Broken(resources, records, done, residue, starts, env)
    modifies resources`native, resources`files
    ensures forall i :: 0 <= i < |resources| ==> DurableOk(resources[i].native, resources[i].files)
    ensures r.Clean? ==> forall i :: 0 <= i < |resources| ==> Left(starts[i], resources[i].native, resources[i].files, records[i], env)
    ensures r.Cut? ==> env.crashes
  {
    hide Intended, Mutated, Residual, DurableOk, Left;
    MutatedIsDurable(resources, records, done, residue, starts, env);
    var undone := UndoAll(env, resources, records, done, residue, starts);
    if undone.Cut? {
      return Cut;
    }
    var failed := CleanFailed(env, resources[|done|], records[|done|], residue, starts[|done|]);
    if failed.Cut? {
      return Cut;
    }
    var withdrawn := WithdrawRest(env, resources, records, |done| + 1, starts);
    if withdrawn.Cut? {
      return Cut;
    }
    r := Clean(undone.errors + failed.errors + withdrawn.errors);
  }

  /** Withdraws the records of the resources that were not reached. */
  method WithdrawRest(env: Env, resources: seq<Resource>, records: seq<Record>, first: nat, ghost starts: seq<Native>) returns (r: Cleanup)
    requires Distinct(resources) && |records| == |resources| == |starts| && first <= |resources|
    requires forall i :: 0 <= i < |resources| ==> Fresh(records[i])
    requires forall i :: first <= i < |resources| ==> Intended(starts[i], resources[i], records[i])
    modifies resources[first..]`native, resources[first..]`files
    ensures forall i :: first <= i < |resources| ==> DurableOk(resources[i].native, resources[i].files)
    ensures r.Clean? ==> forall i :: first <= i < |resources| ==> Left(starts[i], resources[i].native, resources[i].files, records[i], env)
    ensures forall i :: 0 <= i < first ==> unchanged(resources[i])
    ensures r.Cut? ==> env.crashes
  {
    hide Intended, DurableOk, Left;
    IntendedIsDurable(resources, records, first, starts);
    var errors: seq<Error> := [];
    for k := first to |resources|
      invariant forall i :: first <= i < |resources| ==> DurableOk(resources[i].native, resources[i].files)
      invariant forall i :: first <= i < k ==> Left(starts[i], resources[i].native, resources[i].files, records[i], env)
      invariant forall i :: k <= i < |resources| ==> Intended(starts[i], resources[i], records[i])
      invariant forall i :: 0 <= i < first ==> unchanged(resources[i])
    {
      assert resources[k] == resources[first..][k - first];
      var withdrawn := AbandonIntent(env, resources[k], records[k], starts[k]);
      if withdrawn.Cut? {
        return Cut;
      }
      errors := errors + withdrawn.errors;
    }
    r := Clean(errors);
  }

  lemma IntendedIsDurable(resources: seq<Resource>, records: seq<Record>, first: nat, starts: seq<Native>)
    requires |records| == |resources| == |starts| && first <= |resources|
    requires forall i :: first <= i < |resources| ==> Intended(starts[i], resources[i], records[i])
    ensures forall i :: first <= i < |resources| ==> DurableOk(resources[i].native, resources[i].files)
  {
    hide DurableOk;
    forall i | first <= i < |resources| ensures DurableOk(resources[i].native, resources[i].files) {
      assert Intended(starts[i], resources[i], records[i]);
    }
  }

  /** Undoes the mutations that were verified before the failure. */
  method UndoAll(env: Env, resources: seq<Resource>, records: seq<Record>, done: seq<VerifiedMutation>, residue: Residue, ghost starts: seq<Native>)
    returns (r: Cleanup)
    requires Distinct(resources) && |records| == |resources| == |starts| && |done| < |resources|
    requires forall i :: 0 <= i < |resources| ==> Fresh(records[i])
    requires forall i :: 0 <= i < |resources| ==> DurableOk(resources[i].native, resources[i].files)
    requires Broken(resources, records, done, residue, starts, env)
    modifies resources[..|done|]`native, resources[..|done|]`files
    ensures forall i :: 0 <= i < |resources| ==> DurableOk(resources[i].native, resources[i].files)
    ensures r.Clean? ==> forall i :: 0 <= i < |done| ==> Left(starts[i], resources[i].native, resources[i].files, records[i], env)
    ensures r.Cut? ==> env.crashes
  {
    hide Intended, Mutated, Residual, DurableOk, Left;
    var errors: seq<Error> := [];
    for k := 0 to |done|
      invariant forall i :: 0 <= i < |resources| ==> DurableOk(resources[i].native, resources[i].files)
      invariant forall i :: 0 <= i < k ==> Left(starts[i], resources[i].native, resources[i].files, records[i], env)
      invariant forall i :: k <= i < |done| ==> Mutated(starts[i], resources[i], records[i], done[i])
    {
      assert resources[k] in resources[..|done|];
      var undone := UndoOne(env, resources[k], records[k], done[k], starts[k]);
      if undone.Cut? {
        return Cut;
      }
      errors := errors + undone.errors;
    }
    r := Clean(errors);
  }

  lemma MutatedIsDurable(resources: seq<Resource>, records: seq<Record>, done: seq<VerifiedMutation>, residue: Residue, starts: seq<Native>, env: Env)
    requires |records| == |resources| == |starts| && |done| < |resources|
    requires Broken(resources, records, done, residue, starts, env)
    ensures forall i :: 0 <= i < |resources| ==> DurableOk(resources[i].native, resources[i].files)
  {
    hide DurableOk;
    forall i | 0 <= i < |resources| ensures DurableOk(resources[i].native, resources[i].files) {
      if i < |done| {
        assert Mutated(starts[i], resources[i], records[i], done[i]);
      } else if i > |done| {
        assert Intended(starts[i], resources[i], records[i]);
      }
    }
  }

  /** Withdraws the intent of a resource that the transaction did not reach. */
  method AbandonIntent(env: Env, res: Resource, record: Record, ghost a: Native) returns (r: Cleanup)
    requires Intended(a, res, record)
    modifies res`files
    ensures DurableOk(res.native, res.files)
    ensures r.Clean? ==> Left(a, res.native, res.files, record, env)
    ensures r.Cut? ==> env.crashes
  {
    r := WithdrawOne(env, res, record);
    if r.Clean? {
      UntouchedIsLeft(a, res, record, env);
    }
  }

  lemma UntouchedIsLeft(a: Native, res: Resource, r: Record, env: Env)
    requires Untouched(a, res, r) && (env.failures || res.files == map[])
    ensures Left(a, res.native, res.files, r, env)
  {
  }

  /** A live record that carries its verified overlay. If nobody else wrote the
      resource, the lease owns its state, and that satisfies the plan. */
  ghost predicate Carried(a: Native, live: LiveRecord, r: Record)
    reads live, live.res
  {
    && live.Valid()
    && live.registered
    && SameClaim(live.record, r)
    && (live.state == Committed || live.state.Verified?)
    && Later(a, live.res.native)
    && (live.res.native.foreign == a.foreign ==>
          OwnsClaim(live.res.native, live.record, live.state) && StateMatches(Last(live.res.native).state, r.desired))
  }

  /** A resource that the transaction handed over to a lease. */
  ghost predicate Taken(a: Native, live: LiveRecord, res: Resource, r: Record)
    reads live, live.res
  {
    && live.res == res
    && live.Valid()
    && live.registered
    && SameClaim(live.record, r)
    && (live.state == Committed || live.state.Verified?)
    && Later(a, res.native)
    && (AsCaptured(a, r) && res.native.foreign == a.foreign ==>
          OwnsClaim(res.native, live.record, live.state) && StateMatches(Last(res.native).state, r.desired))
  }

  lemma CarriedAfterCommit(a: Native, b: Native, files: Files, live: LiveRecord, r: Record, m: VerifiedMutation, out: Outcome<()>)
    requires DurableOk(b, files) && LiveOk(b, files, r, LiveState.Verified(m), true)
    requires Later(a, b) && (b.foreign == a.foreign ==> Owns(b, m.observed))
    requires Foreign(b, live.res.native)
    requires live.Valid() && live.registered
    requires out.Done? ==> live.state == Committed && live.record == Finalized(r, m)
    requires out.Fail? ==> live.state == LiveState.Verified(m) && live.record == r
    requires !out.Died?
    ensures Carried(a, live, r)
  {
    ForeignIsLater(b, live.res.native);
    LaterTransitive(a, b, live.res.native);
  }

  lemma TakenAtOnce(live: LiveRecord, r: Record)
    requires Intended(live.res.native, live.res, r)
    requires live.record == r && live.registered && live.state == Committed
    requires r.phase.Applied? && r.applied == Some(r.before) && StateMatches(r.before.state, r.desired)
    ensures Taken(live.res.native, live, live.res, r)
  {
  }

  lemma MutatedFacts(a: Native, res: Resource, r: Record, m: VerifiedMutation)
    requires Mutated(a, res, r, m)
    ensures DurableOk(res.native, res.files) && LiveOk(res.native, res.files, r, LiveState.Verified(m), true)
    ensures Later(a, res.native) && (res.native.foreign == a.foreign ==> Owns(res.native, m.observed) && StatusOf(res.native, r.identity) == Same)
    ensures m.Persist() == m.observed
  {
    LiveStates(res.native, res.files, r, LiveState.Verified(m), true);
  }

  /** Publishes one verified mutation. */
  method CommitOne(env: Env, live: LiveRecord, mutation: VerifiedMutation, ghost a: Native) returns (r: Outcome<()>)
    requires Mutated(a, live.res, live.record, mutation) && live.registered
    modifies live`record, live`state, live.res`native, live.res`files
    ensures DurableOk(live.res.native, live.res.files)
    ensures !r.Died? ==> Carried(a, live, old(live.record)) && (r.Done? <==> live.state == Committed)
    ensures !env.externals ==> live.res.native == old(live.res.native)
    ensures Calm(env) && old(live.res.native).foreign == a.foreign && !r.Died? ==> live.state == Committed
    ensures r.Died? ==> env.crashes
  {
    hide Carried, Mutated, DurableOk, LiveOk, Foreign, Later;
    ghost var b, files, record := live.res.native, live.res.files, live.record;
    MutatedFacts(a, live.res, record, mutation);
    r := CommitVerified(env, live, mutation);
    if !r.Died? {
      CarriedAfterCommit(a, b, files, live, record, mutation, r);
    }
  }

  /** The live records of a transaction, one for each resource. */
  method Register(resources: seq<Resource>, records: seq<Record>, state: LiveState) returns (live: seq<LiveRecord>)
    requires |records| == |resources|
    ensures |live| == |resources|
    ensures forall i :: 0 <= i < |live| ==> fresh(live[i])
    ensures forall i :: 0 <= i < |live| ==> live[i].res == resources[i] && live[i].record == records[i] && live[i].registered && live[i].state == state
    ensures Distinct(live)
  {
    live := [];
    for k := 0 to |resources|
      invariant |live| == k
      invariant forall i :: 0 <= i < k ==> fresh(live[i])
      invariant forall i :: 0 <= i < k ==> live[i].res == resources[i] && live[i].record == records[i] && live[i].registered && live[i].state == state
      invariant Distinct(live)
    {
      var entry := new LiveRecord(resources[k], records[k]);
      entry.state := state;
      live := live + [entry];
    }
  }

  /** Turns verified mutations into applied records. A record that cannot be
      written leaves its resource verified; `failure` is the earliest error. */
  method CommitAll(env: Env, live: seq<LiveRecord>, done: seq<VerifiedMutation>, ghost records: seq<Record>, ghost starts: seq<Native>)
    returns (r: Outcome<()>, failure: Option<Error>)
    requires Apart(live) && |live| == |starts| == |done| == |records|
    requires forall i :: 0 <= i < |live| ==> live[i].registered && live[i].record == records[i] && Mutated(starts[i], live[i].res, records[i], done[i])
    modifies live`record, live`state, ResourcesOf(live)`native, ResourcesOf(live)`files
    ensures !r.Fail?
    ensures r.Died? ==> env.crashes && forall i :: 0 <= i < |live| ==> DurableOk(live[i].res.native, live[i].res.files)
    ensures r.Done? ==> forall i :: 0 <= i < |live| ==> Carried(starts[i], live[i], records[i])
    ensures r.Done? && failure.None? ==> forall i :: 0 <= i < |live| ==> live[i].state == Committed
    ensures Calm(env) && old(QuietSince(live, starts)) ==> failure.None?
    ensures !env.externals ==> forall i :: 0 <= i < |live| ==> live[i].res.native == old(live[i].res.native)
  {
    hide Carried, Mutated, DurableOk, Committable, Apart, QuietSince;
    failure := None;
    ghost var quiet := QuietSince(live, starts) && Calm(env);
    AllCommittable(live, records, done, starts, quiet);
    for k := 0 to |live|
      invariant forall i :: 0 <= i < k ==> Carried(starts[i], live[i], records[i])
      invariant forall i :: k <= i < |live| ==> Committable(starts[i], live[i], records[i], done[i], quiet)
      invariant failure.None? ==> forall i :: 0 <= i < k ==> live[i].state == Committed
      invariant quiet ==> Calm(env) && failure.None?
      invariant !env.externals ==> forall i :: 0 <= i < |live| ==> live[i].res.native == old(live[i].res.native)
    {
      OthersApart(live, k);
      CommittableParts(starts[k], live[k], records[k], done[k], quiet);
      r := CommitOne(env, live[k], done[k], starts[k]);
      if r.Died? {
        CommittingIsDurable(live, records, done, starts, quiet);
        return;
      }
      if r.Fail? && failure.None? {
        failure := Some(r.error);
      }
    }
    r := Done(());
  }

  /** Nobody else wrote the resources since `starts`. */
  ghost predicate QuietSince(live: seq<LiveRecord>, starts: seq<Native>)
    requires |starts| == |live|
    reads ResourcesOf(live)
  {
    forall i :: 0 <= i < |live| ==> ResourcesOf(live)[i].native.foreign == starts[i].foreign
  }

  ghost predicate Committable(a: Native, live: LiveRecord, r: Record, m: VerifiedMutation, quiet: bool)
    reads live, live.res
  {
    && live.record == r
    && live.registered
    && Mutated(a, live.res, r, m)
    && (quiet ==> live.res.native.foreign == a.foreign)
  }

  lemma CommittableParts(a: Native, live: LiveRecord, r: Record, m: VerifiedMutation, quiet: bool)
    requires Committable(a, live, r, m, quiet)
    ensures live.record == r && live.registered && Mutated(a, live.res, r, m)
    ensures quiet ==> live.res.native.foreign == a.foreign
  {
  }

  lemma AllCommittable(live: seq<LiveRecord>, records: seq<Record>, done: seq<VerifiedMutation>, starts: seq<Native>, quiet: bool)
    requires |live| == |starts| == |done| == |records|
    requires forall i :: 0 <= i < |live| ==> live[i].registered && live[i].record == records[i] && Mutated(starts[i], live[i].res, records[i], done[i])
    requires quiet ==> QuietSince(live, starts)
    ensures forall i :: 0 <= i < |live| ==> Committable(starts[i], live[i], records[i], done[i], quiet)
  {
    hide DurableOk;
    forall i | 0 <= i < |live|
      ensures Committable(starts[i], live[i], records[i], done[i], quiet)
    {
      assert Mutated(starts[i], live[i].res, records[i], done[i]);
      assert ResourcesOf(live)[i] == live[i].res;
    }
  }

  lemma CommittingIsDurable(live: seq<LiveRecord>, records: seq<Record>, done: seq<VerifiedMutation>, starts: seq<Native>, quiet: bool)
    requires |live| == |starts| == |done| == |records|
    ensures forall i :: 0 <= i < |live| && Carried(starts[i], live[i], records[i]) ==> DurableOk(live[i].res.native, live[i].res.files)
    ensures forall i :: 0 <= i < |live| && Committable(starts[i], live[i], records[i], done[i], quiet) ==> DurableOk(live[i].res.native, live[i].res.files)
  {
    hide DurableOk, LiveOk;
  }

  predicate AllMatch(snapshots: seq<Snapshot>, plan: Plan) {
    forall i :: 0 <= i < |snapshots| ==> StateMatches(snapshots[i].state, plan)
  }

  /** The record of a new transaction. One that has nothing to change is
      published as applied, with the captured state as its overlay. */
  function InitialRecord(owner: string, lease: nat, plan: Plan, before: Snapshot, identity: nat, noop: bool): Record {
    Record(owner, lease, identity, if noop then Phase.Applied else Phase.Prepared, before, plan, if noop then Some(before) else None)
  }

  datatype Transaction = Transaction(live: seq<LiveRecord>, noop: bool)

  /** The whole of an apply on captured resources. No journal file names them yet. */
  method TransactWithLocks(env: Env, owner: string, lease: nat, resources: seq<Resource>, plan: Plan, befores: seq<Snapshot>, identities: seq<nat>)
    returns (r: Outcome<Transaction>, ghost records: seq<Record>)
    requires Distinct(resources) && |befores| == |identities| == |resources|
    requires forall i :: 0 <= i < |resources| ==> resources[i].files == map[] && DurableOk(resources[i].native, map[])
    requires forall i :: 0 <= i < |resources| ==> Captured(resources[i].native, InitialRecord(owner, lease, plan, befores[i], identities[i], false))
    modifies resources`native, resources`files
    ensures |records| == |resources|
    ensures forall i :: 0 <= i < |resources| ==> records[i] == InitialRecord(owner, lease, plan, befores[i], identities[i], AllMatch(befores, plan))
    ensures r.Done? ==>
              && r.value.noop == AllMatch(befores, plan)
              && |r.value.live| == |resources|
              && Distinct(r.value.live)
              && forall i :: 0 <= i < |resources| ==> fresh(r.value.live[i]) && Taken(old(resources[i].native), r.value.live[i], resources[i], records[i])
    ensures r.Done? && r.value.noop ==> forall i :: 0 <= i < |resources| ==> resources[i].native == old(resources[i].native)
    ensures r.Fail? ==> forall i :: 0 <= i < |resources| ==> Left(old(resources[i].native), resources[i].native, resources[i].files, records[i], env)
    ensures !r.Done? ==> forall i :: 0 <= i < |resources| ==> DurableOk(resources[i].native, resources[i].files)
    ensures r.Died? ==> env.crashes
    ensures Calm(env) && (forall i :: 0 <= i < |resources| ==> AsCaptured(old(resources[i].native), records[i])) ==>
              !r.Fail? && (r.Done? ==> forall i :: 0 <= i < |resources| ==> r.value.live[i].state == Committed)
    ensures r.Done? && !env.externals ==> forall i :: 0 <= i < |resources| ==> resources[i].native.foreign == old(resources[i].native.foreign)
  {
    hide Taken, DurableOk, Left, Untouched, Intended, Captured, AsCaptured, AllMatch, InitialRecord, Fresh, StateMatches;
    var noop := AllMatch(befores, plan);
    InitialParts(owner, lease, plan, befores, identities);
    var payload := seq(|resources|, i requires 0 <= i < |resources| => InitialRecord(owner, lease, plan, befores[i], identities[i], noop));
    records := payload;
    ghost var starts := Natives(resources);
    StartsUntouched(resources, payload, owner, lease, plan, befores, identities, noop);
    var persisted := PersistUnmutated(env, resources, payload);
    if !persisted.Done? {
      UntouchedIsLeftAll(resources, payload, starts, env);
      return persisted.PropagateFailure(), records;
    }
    if noop {
      r := TakeOver(resources, payload);
    } else {
      r := MutateAndPublish(env, resources, payload, starts);
    }
  }

  lemma InitialParts(owner: string, lease: nat, plan: Plan, befores: seq<Snapshot>, identities: seq<nat>)
    requires |befores| == |identities|
    ensures forall i :: 0 <= i < |befores| ==> Fresh(InitialRecord(owner, lease, plan, befores[i], identities[i], false))
    ensures AllMatch(befores, plan) ==> forall i :: 0 <= i < |befores| ==> Unchanging(InitialRecord(owner, lease, plan, befores[i], identities[i], true))
  {
  }

  /** The record has nothing to change. */
  predicate Unchanging(p: Record) {
    p.phase.Applied? && p.applied == Some(p.before) && StateMatches(p.before.state, p.desired)
  }

  /** A lease over resources that already show the plan. */
  method TakeOver(resources: seq<Resource>, records: seq<Record>) returns (r: Outcome<Transaction>)
    requires |records| == |resources|
    requires forall i :: 0 <= i < |resources| ==> Intended(resources[i].native, resources[i], records[i])
    requires forall i :: 0 <= i < |resources| ==> Unchanging(records[i])
    ensures r.Done? && r.value.noop && |r.value.live| == |resources| && Distinct(r.value.live)
    ensures forall i :: 0 <= i < |resources| ==>
              && fresh(r.value.live[i])
              && r.value.live[i].state == Committed
              && Taken(resources[i].native, r.value.live[i], resources[i], records[i])
  {
    hide Taken, Intended;
    var live := Register(resources, records, Committed);
    forall i | 0 <= i < |resources| ensures Taken(resources[i].native, live[i], resources[i], records[i]) {
      TakenAtOnce(live[i], records[i]);
    }
    r := Done(Transaction(live, true));
  }

  lemma CarriedIsTaken(starts: seq<Native>, live: seq<LiveRecord>, records: seq<Record>)
    requires |starts| == |live| == |records|
    requires forall i :: 0 <= i < |live| ==> Carried(starts[i], live[i], records[i])
    ensures forall i :: 0 <= i < |live| ==> Taken(starts[i], live[i], live[i].res, records[i])
  {
    hide LiveRecord.Valid, Later;
    forall i | 0 <= i < |live| ensures Taken(starts[i], live[i], live[i].res, records[i]) {
      assert Carried(starts[i], live[i], records[i]);
    }
  }

  /** The mutating half of a transaction, after every intent was published. */
  method MutateAndPublish(env: Env, resources: seq<Resource>, records: seq<Record>, ghost starts: seq<Native>) returns (r: Outcome<Transaction>)
    requires Distinct(resources) && |records| == |resources| == |starts|
    requires forall i :: 0 <= i < |resources| ==> resources[i].native == starts[i] && Intended(starts[i], resources[i], records[i]) && Fresh(records[i])
    modifies resources`native, resources`files
    ensures r.Done? ==>
              && !r.value.noop
              && |r.value.live| == |resources|
              && Distinct(r.value.live)
              && forall i :: 0 <= i < |resources| ==> fresh(r.value.live[i]) && Taken(starts[i], r.value.live[i], resources[i], records[i])
    ensures r.Fail? ==> forall i :: 0 <= i < |resources| ==> Left(starts[i], resources[i].native, resources[i].files, records[i], env)
    ensures !r.Done? ==> forall i :: 0 <= i < |resources| ==> DurableOk(resources[i].native, resources[i].files)
    ensures r.Died? ==> env.crashes
    ensures Calm(env) && (forall i :: 0 <= i < |resources| ==> AsCaptured(starts[i], records[i])) ==>
              !r.Fail? && (r.Done? ==> forall i :: 0 <= i < |resources| ==> r.value.live[i].state == Committed)
    ensures r.Done? && !env.externals ==> forall i :: 0 <= i < |resources| ==> resources[i].native.foreign == starts[i].foreign
  {
    hide Taken, Carried, Mutated, DurableOk, Left, Intended, Broken, AsCaptured;
    var done, mutated := MutateAll(env, resources, records, starts);
    match mutated {
      case Stopped => return Died;
      case OneFailed(error, residue) =>
        var cleaned := CleanUp(env, resources, records, done, residue, starts);
        r := if cleaned.Cut? then Died else Fail(TransactionError(error, cleaned.errors));
      case AllVerified =>
        var live := Register(resources, records, LiveState.Prepared);
        var committed, _ := CommitAll(env, live, done, records, starts);
        if committed.Done? {
          CarriedIsTaken(starts, live, records);
        }
        r := if committed.Died? then Died else Done(Transaction(live, false));
    }
  }

  ghost function Natives(resources: seq<Resource>): (r: seq<Native>)
    reads resources
    ensures |r| == |resources|
    ensures forall i :: 0 <= i < |resources| ==> r[i] == resources[i].native
  {
    if resources == [] then [] else [resources[0].native] + Natives(resources[1..])
  }

  lemma StartsUntouched(resources: seq<Resource>, records: seq<Record>, owner: string, lease: nat, plan: Plan, befores: seq<Snapshot>, identities: seq<nat>, noop: bool)
    requires |befores| == |identities| == |resources| == |records|
    requires forall i :: 0 <= i < |resources| ==> resources[i].files == map[] && DurableOk(resources[i].native, map[])
    requires forall i :: 0 <= i < |resources| ==> Captured(resources[i].native, InitialRecord(owner, lease, plan, befores[i], identities[i], false))
    requires forall i :: 0 <= i < |resources| ==> records[i] == InitialRecord(owner, lease, plan, befores[i], identities[i], noop)
    ensures forall i :: 0 <= i < |resources| ==> Untouched(resources[i].native, resources[i], records[i])
  {
    hide DurableOk;
    forall i | 0 <= i < |resources| ensures Untouched(resources[i].native, resources[i], records[i]) {
      assert Captured(resources[i].native, InitialRecord(owner, lease, plan, befores[i], identities[i], false));
    }
  }

  lemma UntouchedIsLeftAll(resources: seq<Resource>, records: seq<Record>, starts: seq<Native>, env: Env)
    requires |records| == |resources| == |starts|
    requires forall i :: 0 <= i < |resources| ==> starts[i] == resources[i].native && Untouched(starts[i], resources[i], records[i])
    ensures forall i :: 0 <= i < |resources| ==> DurableOk(resources[i].native, resources[i].files) && (env.failures ==> Left(starts[i], resources[i].native, resources[i].files, records[i], env))
  {
    hide DurableOk, Left;
    forall i | 0 <= i < |resources|
      ensures DurableOk(resources[i].native, resources[i].files) && (env.failures ==> Left(starts[i], resources[i].native, resources[i].files, records[i], env))
    {
      if env.failures {
        UntouchedIsLeft(starts[i], resources[i], records[i], env);
      }
      assert Untouched(starts[i], resources[i], records[i]);
    }
  }
}
