/** Recovery of journal records that a dead process left behind, from
    published evidence only. */
module Recovery {
  import opened Dns
  import opened World
  import opened Durable
  import opened Backend
  import opened Engine
  import opened Lifecycle
  import opened Restoring

  datatype Recovered =
    | WasGone
    | WasReplaced
    | JournalCleared
    | BroughtBack
    | ExternalConflict
    | IdentityMismatch
    | ForeignOwner
    | Busy
    | RecoveryFailed
    | NoRecord

  predicate Removes(out: Recovered) {
    out in {WasGone, WasReplaced, JournalCleared, BroughtBack}
  }

  /** The record alone suffices to bring the resource back. */
  predicate Recoverable(n: Native, r: Record) {
    StatusOf(n, r.identity) == Same && (Last(n).state == r.before.state || OwnsIfAny(n, r.applied))
  }

  predicate AtBefore(n: Native, r: Record) {
    StatusOf(n, r.identity) == Same && Last(n).state == r.before.state
  }

  // ----- which copies of records may be recovered

  /** Nothing is left to undo for the record: its incarnation is gone, or the
      resource is back in its original state. */
  predicate Superfluous(n: Native, r: Record) {
    StatusOf(n, r.identity) != Same || Last(n).state == r.before.state
  }

  /** The evidence of the record names the present state, which it would take
      back. */
  predicate Writes(n: Native, r: Record) {
    !Superfluous(n, r) && OwnsIfAny(n, r.applied)
  }

  /** Recovery works on copies that were read before the lock was taken. What the
      copy says to do is what the journal file of its lease says now. */
  predicate StillCurrent(n: Native, files: Files, r: Record) {
    && (Writes(n, r) ==> r.lease in files && files[r.lease].applied == r.applied && files[r.lease].before.state == r.before.state)
    && (Superfluous(n, r) && r.lease in files ==> Superfluous(n, files[r.lease]))
  }

  /** The journal holds the transaction that the copy was taken of. */
  predicate StillPublished(files: Files, r: Record) {
    r.lease in files && files[r.lease].before.state == r.before.state && files[r.lease].identity == r.identity
  }

  /** A copy that was once read from the journal and is still current. */
  predicate MayRecover(n: Native, files: Files, r: Record) {
    Truthful(n, r) && StillCurrent(n, files, r)
  }

  /** What the present state of the resource means for a copy. */
  datatype Assessment = Obsolete(why: Recovered) | NotOurs(why: Recovered) | Ours

  function Assess(n: Native, r: Record): Assessment {
    match StatusOf(n, r.identity)
    case Gone => Obsolete(WasGone)
    case Replaced => Obsolete(WasReplaced)
    case _ =>
      if Last(n).state == r.before.state then Obsolete(JournalCleared)
      else if OwnsIfAny(n, r.applied) then Ours
      else NotOurs(ExternalConflict)
  }

  /** The four cases of a record exclude each other, and each has its report. */
  lemma AssessmentTells(n: Native, r: Record)
    ensures Assess(n, r) == Obsolete(WasGone) <==> !n.present
    ensures Assess(n, r) == Obsolete(WasReplaced) <==> n.present && Last(n).incarnation != r.identity
    ensures Assess(n, r) == Obsolete(JournalCleared) <==> n.present && Last(n).incarnation == r.identity && Last(n).state == r.before.state
    ensures Assess(n, r) == Ours <==> Writes(n, r)
    ensures Assess(n, r) == NotOurs(ExternalConflict) <==> !Superfluous(n, r) && !OwnsIfAny(n, r.applied)
  {
  }

  /** What recovering the copy `r` does when nothing interferes and nothing
      fails. */
  function PeacefulRecovery(n: Native, files: Files, r: Record): (Native, Files, Recovered) {
    match Assess(n, r)
    case Obsolete(why) => (n, files - {r.lease}, why)
    case NotOurs(why) => (n, files, why)
    case Ours => (EngineWrite(n, r.before.state, files), files - {r.lease}, BroughtBack)
  }

  /** What recovering the copy `r` does when nothing interferes and the backend
      refuses to write: the rollback fails, and the copy is published again. */
  function RefusedRecovery(n: Native, files: Files, r: Record): (Native, Files, Outcome<Recovered>) {
    match Assess(n, r)
    case Obsolete(why) => (n, files - {r.lease}, Done(why))
    case NotOurs(why) => (n, files, Done(why))
    case Ours => (n, files[r.lease := Retained(r, r.applied)], Fail(Platform))
  }

  /** The record that a failed rollback publishes. */
  function Retained(r: Record, evidence: Option<Snapshot>): Record {
    r.(phase := Phase.Prepared, applied := evidence)
  }

  /** Recovery used published evidence only: it wrote only over the generation
      that the journal file of the lease names, back to the original state in
      that file, and removed the file only when nothing was left to undo for it. */
  predicate FromPublished(a: Native, fa: Files, lease: nat, b: Native, fb: Files, env: Env) {
    && (|| Foreign(a, b)
        || (lease in fa && fa[lease].applied.Some? && Overwrote(a, b, fa, fa[lease].applied.value, fa[lease].before.state, env)))
    && (lease in fa && lease !in fb ==>
          if b.foreign == a.foreign then Superfluous(b, fa[lease]) else Settled(b, fa[lease].before.state))
  }

  /** The copy is current if it is the journal file itself. */
  lemma FileMayRecover(n: Native, files: Files, r: Record)
    requires DurableOk(n, files) && r.lease in files && files[r.lease] == r
    ensures MayRecover(n, files, r) && StillPublished(files, r) && StaysUnique(n, files, r)
    ensures forall l :: l in files ==> l == r.lease
  {
    assert RecordOk(n, r);
  }

  /** Without interference, recovering a copy uses published evidence only exactly
      when the copy is still current while the lock is held. With interference it
      still does so whenever the copy is current: see `RecoverRecord`. */
  lemma RecoversPublishedIff(n: Native, files: Files, r: Record, env: Env)
    requires Peaceful(env)
    ensures var (m, f, _) := PeacefulRecovery(n, files, r);
            FromPublished(n, files, r.lease, m, f, env) <==> StillCurrent(n, files, r)
  {
    var m := EngineWrite(n, r.before.state, files);
    assert |m.log| > |n.log| && Last(m).state == r.before.state && StatusOf(m, r.identity) == StatusOf(n, r.identity);
    assert m.log[|n.log|] == Last(m);
  }

  /** The record of the lease is still there, or no other lease has one, or the
      copy would not write. */
  predicate StaysUnique(n: Native, files: Files, r: Record) {
    r.lease in files || files == map[] || !Writes(n, r)
  }

  /** Publishing a record for `r.lease` leaves one record exactly when no other
      lease has one. */
  lemma RepublishedIff(files: Files, r: Record, evidence: Option<Snapshot>)
    requires Unique(files)
    ensures Unique(files[r.lease := Retained(r, evidence)]) <==> r.lease in files || files == map[]
  {
    var f := files[r.lease := Retained(r, evidence)];
    if r.lease !in files && files != map[] {
      var l :| l in files;
      assert l in f && r.lease in f;
    }
  }

  /** If the backend refuses to write, recovery leaves one record exactly under
      this condition; and under it, recovery does so in every environment
      (`RecoverRecord`). */
  lemma StaysUniqueIff(n: Native, files: Files, r: Record)
    requires Unique(files)
    ensures Unique(RefusedRecovery(n, files, r).1) <==> StaysUnique(n, files, r)
  {
    RepublishedIff(files, r, r.applied);
  }

  predicate Peaceful(env: Env) { Calm(env) && !env.crashes }

  // ----- what recovery does

  /** What an attempt to recover `r`, whose transaction is published, may do,
      however it ends. */
  predicate Recovery(a: Native, fa: Files, r: Record, b: Native, fb: Files, env: Env, out: Outcome<Recovered>) {
    && Later(a, b)
    && (!env.externals ==> b.foreign == a.foreign)
    && (out.Died? ==> env.crashes)
    // at most one write, and only over the generation that the record names
    && (Foreign(a, b) || (Writes(a, r) && Overwrote(a, b, fa, r.applied.value, r.before.state, env)))
    && (out.Done? && !Removes(out.value) ==> Foreign(a, b))
    // the record goes only when nothing of ours is left
    && (r.lease !in fb ==> Settled(b, r.before.state))
    && (r.lease !in fb && b.foreign == a.foreign && StatusOf(a, r.identity) == Same ==> AtBefore(b, r))
    && (r.lease in fb ==> StillPublished(fb, r))
    && (out.Done? ==> (Removes(out.value) <==> fb == map[]))
    // without failures and other writers, recovery succeeds or can be rerun
    && (Quiet(env, a, b) && Recoverable(a, r) ==>
          && !out.Fail?
          && (out.Done? ==> Removes(out.value) && AtBefore(b, r))
          && (out.Died? ==> AtBefore(b, r) || b == a)
          && (out.Died? ==> fb == map[] || fb == fa))
  }

  /** What recovering a copy may do that is still current: the promise for a
      published transaction, and for any other copy no write at all. */
  predicate Recovering(a: Native, fa: Files, r: Record, b: Native, fb: Files, env: Env, out: Outcome<Recovered>) {
    if StillPublished(fa, r) then Recovery(a, fa, r, b, fb, env, out)
    else
      && Foreign(a, b)
      && (fb == fa || fb == fa - {r.lease})
      && (r.lease in fa && r.lease !in fb ==> Superfluous(b, r) && Settled(b, fa[r.lease].before.state))
  }

  /** Nothing would be lost with the journal file of the copy's lease. */
  predicate Forgettable(n: Native, files: Files, r: Record) {
    DurableOk(n, files) && (r.lease in files ==> !Overlay(n) && Settled(n, files[r.lease].before.state))
  }

  /** What `StillCurrent` and other writers leave of it while recovery runs. */
  predicate Safe(n: Native, files: Files, r: Record) {
    && DurableOk(n, files)
    && Truthful(n, r)
    && (Writes(n, r) ==> r.lease in files && files[r.lease].applied == r.applied && files[r.lease].before.state == r.before.state)
    && (Superfluous(n, r) ==> Forgettable(n, files, r))
  }

  lemma CurrentIsSafe(n: Native, files: Files, r: Record)
    requires DurableOk(n, files) && MayRecover(n, files, r)
    ensures Safe(n, files, r)
  {
    ExternalIsBase(n);
  }

  lemma SafeUnderForeign(a: Native, b: Native, files: Files, r: Record)
    requires Safe(a, files, r) && Foreign(a, b)
    ensures Safe(b, files, r) && DurableOk(b, files) && Truthful(a, r)
    ensures Superfluous(b, r) ==> Forgettable(b, files, r)
  {
    DurableUnderForeign(a, b, files);
    ForeignClears(a, b);
    if b != a && b.present {
      assert Last(b).writer.External?;
    }
  }

  lemma ForgottenOk(n: Native, files: Files, f: Files, r: Record)
    requires Forgettable(n, files, r)
    requires f == files || f == files - {r.lease}
    ensures DurableOk(n, f)
    ensures r.lease in files && r.lease !in f ==> f == map[] && Settled(n, files[r.lease].before.state)
  {
    if r.lease in files && f == files - {r.lease} {
      DurableUnderRemove(n, files, r.lease);
      assert f.Keys == {};
    }
  }

  /** A copy that makes recovery write is a copy of the published transaction. */
  lemma WritesPublished(n: Native, files: Files, r: Record)
    requires Safe(n, files, r) && Writes(n, r)
    ensures StillPublished(files, r) && forall l :: l in files ==> l == r.lease
    ensures Proper(n, files, UndoOf(r), r.lease, r.before.state, r.identity)
    ensures RetainedOk(n, files, r)
  {
    var published := files[r.lease];
    assert RecordOk(n, published) && Covers(n, published);
    ExternalIsBase(n);
  }

  /** The rollback may be published again with newer evidence. */
  predicate RetainedOk(n: Native, files: Files, r: Record) {
    && StillPublished(files, r)
    && (forall l :: l in files ==> l == r.lease)
    && Evidence(n, r.before, r.before.state)
    && Covers(n, r)
    && r.identity <= Last(n).incarnation
  }

  lemma RetainedStays(a: Native, b: Native, files: Files, r: Record)
    requires RetainedOk(a, files, r) && DurableOk(b, files) && Later(a, b)
    ensures RetainedOk(b, files, r)
  {
    assert Covers(b, files[r.lease]);
  }

  /** Drops a record that has nothing left to undo. `sound` says that the
      resource is in order and the copy still current. */
  method Forget(env: Env, res: Resource, record: Record, why: Recovered, ghost sound: bool) returns (r: Outcome<Recovered>)
    requires sound ==> Forgettable(res.native, res.files, record)
    modifies res`files
    ensures sound ==> DurableOk(res.native, res.files)
    ensures sound && record.lease in old(res.files) && record.lease !in res.files ==>
              res.files == map[] && Settled(res.native, old(res.files)[record.lease].before.state)
    ensures res.files == old(res.files) || res.files == old(res.files) - {record.lease}
    ensures r.Done? ==> r.value == why && res.files == old(res.files) - {record.lease}
    ensures r.Fail? ==> env.failures
    ensures r.Died? ==> env.crashes
  {
    hide Forgettable, DurableOk, Settled;
    ghost var files := res.files;
    var removed := res.JournalRemove(env, record.lease);
    if sound {
      ForgottenOk(res.native, files, res.files, record);
    }
    r := match removed
      case Done(_) => Done(why)
      case Fail(error) => Fail(error)
      case Died => Died;
  }

  /** The report says what is the case. */
  predicate TellsWhy(n: Native, r: Record, why: Recovered) {
    match why
    case WasGone => !n.present
    case WasReplaced => n.present && Last(n).incarnation != r.identity
    case JournalCleared => n.present && Last(n).state == r.before.state
    case _ => false
  }

  /** What an assessment tells when other writers may be active. */
  predicate Assessed(n: Native, r: Record, env: Env, a: Assessment) {
    match a
    case Obsolete(why) => Superfluous(n, r) && TellsWhy(n, r, why)
    case NotOurs(why) => !Removes(why) && (env.failures || (n.present && Last(n).state != r.before.state && !OwnsIfAny(n, r.applied)))
    case Ours => OwnsIfAny(n, r.applied) && Last(n).state != r.before.state
  }

  /** Looks at the resource on behalf of a copy. */
  method Examine(env: Env, res: Resource, record: Record) returns (r: Outcome<Assessment>)
    modifies res`native
    ensures Foreign(old(res.native), res.native) && (!env.externals ==> res.native == old(res.native))
    ensures r.Done? ==> Assessed(res.native, record, env, r.value)
    ensures r == Done(Ours) && res.native == old(res.native) ==> StatusOf(res.native, record.identity) == Same
    ensures !env.externals && !env.failures && !env.crashes ==> r == Done(Assess(res.native, record))
    ensures r.Fail? ==> env.failures
    ensures r.Died? ==> env.crashes
  {
    hide ForeignStrict;
    ghost var a := res.native;
    var status :- res.Status(env, record.identity);
    match status {
      case Gone => return Done(Obsolete(WasGone));
      case Replaced => return Done(Obsolete(WasReplaced));
      case Ambiguous => return Done(NotOurs(IdentityMismatch));
      case Same =>
    }
    ghost var b := res.native;
    var reading := res.Readback(env);
    ForeignTransitive(a, b, res.native);
    ForeignIsCounted(a, b);
    ForeignIsCounted(b, res.native);
    if reading == Fail(ResourceGone) {
      return Done(Obsolete(WasGone));
    }
    var current :- reading;
    if current.state == record.before.state {
      return Done(Obsolete(JournalCleared));
    }
    return Done(if record.applied == Some(current) then Ours else NotOurs(ExternalConflict));
  }

  /** Recovers one copy of a record, under the lock of its resource. */
  method RecoverRecord(env: Env, res: Resource, record: Record) returns (r: Outcome<Recovered>)
    modifies res`native, res`files
    ensures old(DurableOk(res.native, res.files) && MayRecover(res.native, res.files, record)) ==>
              && DurableOk(res.native, res.files)
              && Recovering(old(res.native), old(res.files), record, res.native, res.files, env, r)
              && FromPublished(old(res.native), old(res.files), record.lease, res.native, res.files, env)
    ensures Peaceful(env) ==>
              r.Done? && (res.native, res.files, r.value) == PeacefulRecovery(old(res.native), old(res.files), record)
    ensures Refusing(env) ==> (res.native, res.files, r) == RefusedRecovery(old(res.native), old(res.files), record)
    // one record stays one record, unless a rollback of this copy may be published
    // beside the record of another lease
    ensures old(Unique(res.files) && Truthful(res.native, record) && StaysUnique(res.native, res.files, record)) ==> Unique(res.files)
    ensures r.Died? ==> env.crashes
  {
    hide WfNative, DurableOk, Foreign, Later, Recovering, MayRecover, Safe, Forgettable, FromPublished, Unique, StaysUnique;
    ghost var a, fa := res.native, res.files;
    ghost var sound := DurableOk(a, fa) && MayRecover(a, fa, record);
    var assessment := Examine(env, res, record);
    ghost var b := res.native;
    if sound {
      CurrentIsSafe(a, fa, record);
      SafeUnderForeign(a, b, fa, record);
    }
    if assessment == Done(Ours) {
      if Truthful(a, record) {
        NothingSince(a, b, record);
        OwnsMeansAlone(a, fa, record);
      }
      r := UndoPublished(env, res, record, sound);
      if sound {
        RecoveringIsFromPublished(a, fa, record, res.native, res.files, env, r);
      }
      return;
    }
    if !assessment.Done? {
      r := assessment.PropagateFailure();
    } else if assessment.value.NotOurs? {
      r := Done(assessment.value.why);
    } else {
      r := Forget(env, res, record, assessment.value.why, sound);
    }
    if sound {
      RecoveryStopped(a, fa, record, b, res.files, env, assessment, r);
      RecoveringIsFromPublished(a, fa, record, b, res.files, env, r);
    }
    FewerStayUnique(fa, res.files);
  }

  lemma FewerStayUnique(files: Files, f: Files)
    requires forall l :: l in f ==> l in files
    ensures Unique(files) ==> Unique(f)
  {
  }

  lemma OwnsMeansAlone(n: Native, files: Files, r: Record)
    requires OwnsIfAny(n, r.applied) && StatusOf(n, r.identity) == Same && Last(n).state != r.before.state
    ensures StaysUnique(n, files, r) ==> r.lease in files || files == map[]
  {
  }

  lemma RecoveringIsFromPublished(a: Native, fa: Files, r: Record, b: Native, fb: Files, env: Env, out: Outcome<Recovered>)
    requires DurableOk(a, fa) && MayRecover(a, fa, r) && Recovering(a, fa, r, b, fb, env, out)
    ensures FromPublished(a, fa, r.lease, b, fb, env)
  {
    if Foreign(a, b) {
      ForeignIsCounted(a, b);
    }
  }

  lemma RecoveryStopped(a: Native, fa: Files, r: Record, b: Native, fb: Files, env: Env, assessment: Outcome<Assessment>, out: Outcome<Recovered>)
    requires Safe(b, fa, r) && Foreign(a, b) && (!env.externals ==> b == a)
    requires assessment.Done? ==> assessment.value != Ours && Assessed(b, r, env, assessment.value)
    requires (assessment.Fail? ==> env.failures) && (out.Died? ==> env.crashes)
    requires if assessment.Done? && assessment.value.Obsolete?
             then fb in {fa, fa - {r.lease}} && (out.Fail? ==> env.failures) && (out.Done? ==> out.value == assessment.value.why && fb == fa - {r.lease})
             else fb == fa && out == if assessment.Done? then Done(assessment.value.why) else assessment.PropagateFailure()
    requires r.lease in fa && r.lease !in fb ==> fb == map[] && Settled(b, fa[r.lease].before.state)
    ensures Recovering(a, fa, r, b, fb, env, out)
  {
    ForeignIsLater(a, b);
    ForeignIsCounted(a, b);
    if r.lease in fa && fb == fa - {r.lease} {
      assert r.lease !in fb;
    }
  }

  /** The evidence is older than the attempt, so nobody wrote during it. */
  lemma NothingSince(a: Native, b: Native, r: Record)
    requires Foreign(a, b) && OwnsIfAny(b, r.applied)
    requires Truthful(a, r)
    ensures a == b
  {
    StillOwned(a, b, r.applied.value);
  }

  /** Restores over the evidence of the copy, and publishes newer evidence when
      that fails. */
  method UndoPublished(env: Env, res: Resource, record: Record, ghost sound: bool) returns (r: Outcome<Recovered>)
    requires sound ==> Safe(res.native, res.files, record) && Writes(res.native, record)
    requires OwnsIfAny(res.native, record.applied) && Last(res.native).state != record.before.state
    modifies res`native, res`files
    ensures sound ==> DurableOk(res.native, res.files) && Recovering(old(res.native), old(res.files), record, res.native, res.files, env, r)
    ensures Peaceful(env) && StatusOf(old(res.native), record.identity) == Same ==>
              && r == Done(BroughtBack)
              && res.native == EngineWrite(old(res.native), record.before.state, old(res.files))
              && res.files == old(res.files) - {record.lease}
    ensures Refusing(env) && StatusOf(old(res.native), record.identity) == Same ==>
              && r == Fail(Platform)
              && res.native == old(res.native)
              && res.files == old(res.files)[record.lease := Retained(record, record.applied)]
    ensures old(Unique(res.files) && (record.lease in res.files || res.files == map[])) ==> Unique(res.files)
    ensures r.Died? ==> env.crashes
  {
    hide WfNative, DurableOk, Foreign, Recovering, Safe, Writes, Proper, Compensation, Undoing, RetainedOk, StillPublished, Later, PendingOk;
    ghost var a, fa := res.native, res.files;
    if sound {
      WritesPublished(a, fa, record);
    }
    var undone, after := Compensate(env, res, record.identity, UndoOf(record), record.lease, record.before.state, sound);
    ghost var b := res.native;
    UndoInPeace(a, b, fa, record, after, env, undone);
    match undone {
      case Died =>
        r := Died;
        if sound {
          UndoLeft(a, fa, record, b, after, env);
        }
      case Done(_) =>
        if sound {
          UndoneIsForgettable(a, b, fa, record, after, env, undone.value);
        }
        r := Forget(env, res, record, BroughtBack, sound);
        if sound {
          UndoDone(a, fa, record, b, after, undone.value, res.files, env, r);
        }
      case Fail(error) =>
        var retained := Retained(record, after.evidence);
        if sound {
          RetainedIsDurable(a, b, fa, record, after, env, error);
        }
        var written := res.JournalWrite(env, retained);
        if !written.Done? {
          r := written.PropagateFailure();
        } else {
          r := if error == ExternalModification then Done(ExternalConflict) else Fail(error);
        }
        if sound {
          UndoFailed(a, fa, record, b, after, retained, res.files, env, error, r);
        }
    }
  }

  lemma UndoInPeace(a: Native, b: Native, fa: Files, r: Record, after: Pending, env: Env, out: Outcome<Option<Snapshot>>)
    requires OwnsIfAny(a, r.applied) && Last(a).state != r.before.state
    requires Undoing(a, b, fa, r.identity, UndoOf(r), after, env, out)
    ensures Peaceful(env) && StatusOf(a, r.identity) == Same ==> out.Done? && b == EngineWrite(a, r.before.state, fa)
    ensures Refusing(env) && StatusOf(a, r.identity) == Same ==> out == Fail(Platform) && b == a && after == UndoOf(r)
    ensures out.Died? ==> env.crashes
  {
    if Peaceful(env) && StatusOf(a, r.identity) == Same {
      assert Last(b).state != Last(a).state;
      ForeignIsCounted(EngineWrite(a, b.log[|a.log|].state, fa), b);
    }
  }

  lemma UndoLeft(a: Native, fa: Files, r: Record, b: Native, after: Pending, env: Env)
    requires StillPublished(fa, r) && OwnsIfAny(a, r.applied)
    requires Compensation(a, b, fa, r.identity, UndoOf(r), after, r.before.state, env, Died)
    ensures Recovering(a, fa, r, b, fa, env, Died)
  {
  }

  lemma UndoneIsForgettable(a: Native, b: Native, fa: Files, r: Record, after: Pending, env: Env, identity: Option<Snapshot>)
    requires RetainedOk(a, fa, r) && DurableOk(b, fa)
    requires Compensation(a, b, fa, r.identity, UndoOf(r), after, r.before.state, env, Done(identity))
    ensures Forgettable(b, fa, r)
  {
    assert Covers(b, fa[r.lease]);
    ExternalIsBase(b);
  }

  lemma UndoDone(a: Native, fa: Files, r: Record, b: Native, after: Pending, identity: Option<Snapshot>, fb: Files, env: Env, out: Outcome<Recovered>)
    requires RetainedOk(a, fa, r) && OwnsIfAny(a, r.applied)
    requires Compensation(a, b, fa, r.identity, UndoOf(r), after, r.before.state, env, Done(identity))
    requires fb == fa || fb == map[]
    requires out.Done? ==> out.value == BroughtBack && fb == map[]
    requires (out.Fail? ==> env.failures) && (out.Died? ==> env.crashes)
    ensures Recovering(a, fa, r, b, fb, env, out)
  {
  }

  lemma RetainedIsDurable(a: Native, b: Native, fa: Files, r: Record, after: Pending, env: Env, error: Error)
    requires RetainedOk(a, fa, r) && DurableOk(b, fa)
    requires Compensation(a, b, fa, r.identity, UndoOf(r), after, r.before.state, env, Fail(error))
    ensures DurableOk(b, fa[r.lease := Retained(r, after.evidence)])
  {
    RetainedStays(a, b, fa, r);
    DurableUnderPublish(b, fa, Retained(r, after.evidence));
  }

  lemma UndoFailed(a: Native, fa: Files, r: Record, b: Native, after: Pending, retained: Record, fb: Files, env: Env, error: Error, out: Outcome<Recovered>)
    requires RetainedOk(a, fa, r) && OwnsIfAny(a, r.applied)
    requires Compensation(a, b, fa, r.identity, UndoOf(r), after, r.before.state, env, Fail(error))
    requires retained == Retained(r, after.evidence) && Published(fa, fb, retained)
    requires out.Done? ==> out.value == ExternalConflict && error == ExternalModification
    requires out.Died? ==> env.crashes
    ensures Recovering(a, fa, r, b, fb, env, out)
  {
  }

  /** Recovery may die anywhere, be rerun, and die again: as long as nobody
      else writes and nothing fails, the run that finishes leaves the resource
      at `before` and the journal without the record. */
  method RecoverDespiteCrashes(res: Resource, record: Record, crashes: nat) returns (r: Outcome<Recovered>)
    requires DurableOk(res.native, res.files) && record.lease in res.files && res.files[record.lease] == record
    requires Recoverable(res.native, record)
    modifies res`native, res`files
    ensures DurableOk(res.native, res.files)
    ensures r.Done? && AtBefore(res.native, record) && res.files == map[]
  {
    hide DurableOk, Later;
    var left: nat := crashes;
    r := Died;
    while r.Died? && res.files != map[]
      invariant DurableOk(res.native, res.files)
      invariant !r.Fail?
      invariant res.files == map[] ==> AtBefore(res.native, record)
      invariant res.files != map[] ==> record.lease in res.files && res.files[record.lease] == record && Recoverable(res.native, record)
      invariant r.Done? ==> res.files == map[]
      decreases left, if r.Died? then 1 else 0
    {
      var env := Env(false, false, left > 0, false, false);
      FileMayRecover(res.native, res.files, record);
      r := RecoverRecord(env, res, record);
      left := if left > 0 then left - 1 else 0;
    }
    if r.Died? {
      // the last run died after it removed the record: nothing is left to recover
      r := Done(NoRecord);
    }
  }

  // ----- recovery before an apply, and of everything at once

  predicate OwnedBy(files: Files, owner: string) {
    forall l :: l in files ==> files[l].owner == owner
  }

  predicate AllRecoverable(n: Native, files: Files) {
    forall l :: l in files ==> Recoverable(n, files[l])
  }

  /** Clears the way for a new lease: only a resource without a record, or one
      whose record could be recovered, may be captured. */
  method RecoverForResource(env: Env, res: Resource, owner: string) returns (r: Outcome<()>)
    requires DurableOk(res.native, res.files)
    modifies res`native, res`files
    ensures DurableOk(res.native, res.files)
    ensures r.Done? ==> res.files == map[]
    ensures !OwnedBy(old(res.files), owner) ==> r.Fail? && res.native == old(res.native) && res.files == old(res.files)
    ensures old(res.files) == map[] ==> r.Done? && res.native == old(res.native)
    ensures Quiet(env, old(res.native), res.native) && OwnedBy(old(res.files), owner) && AllRecoverable(old(res.native), old(res.files)) ==> !r.Fail?
    ensures r.Died? ==> env.crashes
    ensures !env.externals ==> res.native.foreign == old(res.native).foreign
  {
    if res.files == map[] {
      return Done(());
    }
    var lease :| lease in res.files;
    var record := res.files[lease];
    OnlyRecord(res.native, res.files, lease);
    FileMayRecover(res.native, res.files, record);
    if record.owner != owner {
      return Fail(Conflict);
    }
    var outcome := RecoverRecord(env, res, record);
    r := match outcome
      case Done(recovered) => if Removes(recovered) then Done(()) else Fail(Conflict)
      case Fail(_) => Fail(Conflict)
      case Died => Died;
  }

  lemma OnlyRecord(n: Native, files: Files, lease: nat)
    requires DurableOk(n, files) && lease in files
    ensures files[lease].lease == lease
    ensures forall l :: l in files ==> l == lease
  {
  }

  /** What recovering one copy reported, and did when the copy was current. */
  ghost predicate Attempted(a: Native, fa: Files, r: Record, b: Native, fb: Files, env: Env, out: Recovered) {
    || (b == a && fb == fa && out == RecoveryFailed && env.failures)
    || Recovering(a, fa, r, b, fb, env, Done(out))
    || (out == RecoveryFailed && exists error :: Recovering(a, fa, r, b, fb, env, Fail(error)))
  }

  /** The copy is what the journal holds. */
  predicate Lists(listed: Option<Record>, files: Files) {
    && (listed.None? <==> files == map[])
    && (listed.Some? ==> listed.value.lease in files && files[listed.value.lease] == listed.value)
  }

  /** Reads the journal record of a resource, without taking its lock. */
  method ListRecord(env: Env, res: Resource) returns (r: Outcome<Option<Record>>)
    requires DurableOk(res.native, res.files)
    ensures r.Done? ==> Lists(r.value, res.files)
    ensures r.Fail? ==> env.failures
    ensures r.Died? ==> env.crashes
  {
    var fails: bool, dies: bool := *, *;
    if env.crashes && dies {
      return Died;
    }
    if env.failures && fails {
      return Fail(JournalFailed);
    }
    if res.files == map[] {
      return Done(None);
    }
    var lease :| lease in res.files;
    return Done(Some(res.files[lease]));
  }

  /** Recovers one resource from a copy that was listed earlier, unless a live
      lease holds it or another owner claims it. The copy is not read again. */
  method RecoverListed(env: Env, res: Resource, record: Record, owner: string) returns (r: Outcome<Recovered>)
    modifies res
    ensures !r.Fail? && (r.Died? ==> env.crashes)
    ensures r.Done? ==> res.locked == old(res.locked)
    ensures record.owner != owner ==> unchanged(res) && r == Done(ForeignOwner)
    ensures old(res.locked) ==> unchanged(res) && r == Done(if record.owner != owner then ForeignOwner else Busy)
    ensures old(DurableOk(res.native, res.files) && (res.locked || record.owner != owner || MayRecover(res.native, res.files, record))) ==>
              DurableOk(res.native, res.files)
    ensures old(DurableOk(res.native, res.files) && !res.locked && MayRecover(res.native, res.files, record)) && record.owner == owner && r.Done? ==>
              Attempted(old(res.native), old(res.files), record, res.native, res.files, env, r.value)
    ensures Peaceful(env) && !old(res.locked) && record.owner == owner ==>
              r.Done? && (res.native, res.files, r.value) == PeacefulRecovery(old(res.native), old(res.files), record)
    ensures Refusing(env) && !old(res.locked) && record.owner == owner ==>
              var (n, f, out) := RefusedRecovery(old(res.native), old(res.files), record);
              res.native == n && res.files == f && r == Done(if out.Done? then out.value else RecoveryFailed)
    ensures old(Unique(res.files) && Truthful(res.native, record) && StaysUnique(res.native, res.files, record)) ==> Unique(res.files)
  {
    hide DurableOk, Recovering, MayRecover, PeacefulRecovery, RefusedRecovery, FromPublished, Unique, StaysUnique, Truthful;
    if record.owner != owner {
      return Done(ForeignOwner);
    }
    if res.locked {
      return Done(Busy);
    }
    var fails: bool := *;
    if env.failures && fails {
      return Done(RecoveryFailed);
    }
    res.locked := true;
    var outcome := RecoverRecord(env, res, record);
    if outcome.Died? {
      return Died;
    }
    res.locked := false;
    r := Done(if outcome.Done? then outcome.value else RecoveryFailed);
  }

  /** What a whole pass did to one resource. A resource that is locked by a live
      lease, or claimed by another owner, is not touched. */
  ghost predicate Swept(a: Native, fa: Files, b: Native, fb: Files, locked: bool, owner: string, env: Env, out: Recovered) {
    if fa == map[] then b == a && fb == fa && out == NoRecord
    else if !OwnedBy(fa, owner) then b == a && fb == fa && out == ForeignOwner
    else if locked then b == a && fb == fa && out == Busy
    else forall l :: l in fa ==> Attempted(a, fa, fa[l], b, fb, env, out)
  }

  /** One resource of a pass. Nobody acted on it since it was listed. */
  method Sweep(env: Env, res: Resource, listed: Option<Record>, owner: string) returns (r: Outcome<Recovered>)
    requires DurableOk(res.native, res.files)
    requires Lists(listed, res.files)
    modifies res
    ensures DurableOk(res.native, res.files)
    ensures !r.Fail? && (r.Died? ==> env.crashes)
    ensures r.Done? ==> res.locked == old(res.locked) && Swept(old(res.native), old(res.files), res.native, res.files, res.locked, owner, env, r.value)
    ensures old(res.locked) ==> unchanged(res)
  {
    hide DurableOk, Attempted, MayRecover, PeacefulRecovery;
    if listed.None? {
      return Done(NoRecord);
    }
    OnlyRecord(res.native, res.files, listed.value.lease);
    FileMayRecover(res.native, res.files, listed.value);
    r := RecoverListed(env, res, listed.value, owner);
  }

  method ListAll(env: Env, resources: seq<Resource>) returns (r: Outcome<seq<Option<Record>>>)
    requires forall i :: 0 <= i < |resources| ==> DurableOk(resources[i].native, resources[i].files)
    ensures r.Done? ==> |r.value| == |resources| && forall i :: 0 <= i < |resources| ==> Lists(r.value[i], resources[i].files)
    ensures r.Fail? ==> env.failures
    ensures r.Died? ==> env.crashes
  {
    hide DurableOk;
    var listing: seq<Option<Record>> := [];
    for k := 0 to |resources|
      invariant |listing| == k
      invariant forall i :: 0 <= i < k ==> Lists(listing[i], resources[i].files)
    {
      var listed :- ListRecord(env, resources[k]);
      listing := listing + [listed];
    }
    r := Done(listing);
  }

  /** One uninterrupted pass over everything that dead processes of `owner` left
      behind: all records are listed before the first lock is taken. */
  method RecoverStale(env: Env, resources: seq<Resource>, owner: string) returns (r: Outcome<seq<Recovered>>)
    requires forall i, j :: 0 <= i < j < |resources| ==> resources[i] != resources[j]
    requires forall i :: 0 <= i < |resources| ==> DurableOk(resources[i].native, resources[i].files)
    modifies resources
    ensures forall i :: 0 <= i < |resources| ==> DurableOk(resources[i].native, resources[i].files)
    ensures (r.Fail? ==> env.failures) && (r.Died? ==> env.crashes)
    ensures r.Fail? ==> forall i :: 0 <= i < |resources| ==> unchanged(resources[i])
    ensures r.Done? ==> |r.value| == |resources| && forall i :: 0 <= i < |resources| ==>
              && resources[i].locked == old(resources[i].locked)
              && Swept(old(resources[i].native), old(resources[i].files), resources[i].native, resources[i].files, resources[i].locked, owner, env, r.value[i])
    ensures forall i :: 0 <= i < |resources| && old(resources[i].locked) ==> unchanged(resources[i])
  {
    hide DurableOk, Swept;
    var listing :- ListAll(env, resources);
    var outcomes: seq<Recovered> := [];
    for k := 0 to |resources|
      invariant |outcomes| == k
      invariant forall i :: 0 <= i < |resources| ==> DurableOk(resources[i].native, resources[i].files)
      invariant forall i :: k <= i < |resources| ==> unchanged(resources[i])
      invariant forall i :: 0 <= i < |resources| ==> resources[i].locked == old(resources[i].locked)
      invariant forall i :: 0 <= i < |resources| && old(resources[i].locked) ==> unchanged(resources[i])
      invariant forall i :: 0 <= i < k ==>
                  Swept(old(resources[i].native), old(resources[i].files), resources[i].native, resources[i].files, resources[i].locked, owner, env, outcomes[i])
    {
      assert Lists(listing[k], resources[k].files);
      var swept := Sweep(env, resources[k], listing[k], owner);
      if swept.Died? {
        return Died;
      }
      outcomes := outcomes + [swept.value];
    }
    r := Done(outcomes);
  }
}
