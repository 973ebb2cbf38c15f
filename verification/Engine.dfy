/** One guarded mutation: apply, read back, verify, and roll back from
    backend-issued evidence only. */
module Engine {
  import opened Dns
  import opened World
  import opened Durable
  import opened Backend

  /** What was read after a write that took effect, and, if the backend named the
      write, its identity. */
  datatype VerifiedMutation = VerifiedMutation(proof: Option<Snapshot>, observed: Snapshot)
  {
    function Persist(): Snapshot {
      if proof.Some? then proof.value else observed
    }
  }

  /** Residue to undo: the identity of what was written, and where to go back to. */
  datatype Pending = Pending(evidence: Option<Snapshot>, target: Snapshot)

  datatype Residue =
    | Unchanged
    | Restored(identity: Option<Snapshot>)
    | Unresolved(pending: Pending)

  datatype Mutation =
    | Verified(mutation: VerifiedMutation)
    | Failed(error: Error, residue: Residue)
    | Lost

  predicate IssuedByEngine(n: Native, s: Snapshot) {
    Faithful(n, s) && n.log[s.generation].writer.Engine? && s.generation !in n.adopted
  }

  /** The rollback target and its evidence continue from `base`. */
  predicate PendingOk(n: Native, p: Pending, base: DnsState) {
    && Evidence(n, p.target, base)
    && EvidenceIfAny(n, p.evidence, base)
    && (p.evidence.Some? ==> p.target.state == base || IssuedByEngine(n, p.evidence.value))
  }

  /** If a rollback would have to write, the journal can undo that write. */
  predicate MayUndo(n: Native, files: Files, p: Pending, lease: nat, base: DnsState, identity: nat) {
    OwnsIfAny(n, p.evidence) && Last(n).state != p.target.state ==>
      HasFile(files, lease, base, identity) || (n.disclaimed && files == map[])
  }

  /** The resource was left at `target`; `identity`, when known, names it. */
  predicate Reached(n: Native, target: Snapshot, identity: Option<Snapshot>, base: DnsState) {
    && Settled(n, target.state)
    && EvidenceIfAny(n, identity, base)
    && (identity.Some? ==>
          && identity.value.state == target.state
          && (n.present ==> Generation(n) == identity.value.generation || Last(n).writer.External?))
  }

  /** What a rollback did: external steps only, or one write over the evidence. */
  predicate RolledBack(a: Native, b: Native, files: Files, identity: nat, p: Pending, after: Pending, env: Env) {
    || (Foreign(a, b) && after == p)
    || (&& p.evidence.Some?
        && p.evidence.value.state != p.target.state
        && identity == Last(a).incarnation
        && Overwrote(a, b, files, p.evidence.value, p.target.state, env)
        && after.target == p.target
        && (|| after.evidence == Some(Issued(a, b))
            || (env.silent && after.evidence.None?)
            || ((env.silent || env.crashes) && after == p)))
  }

  /** What a rollback attempt did and learned, however it ended, whatever the
      evidence is worth. */
  predicate Undoing(a: Native, b: Native, files: Files, identity: nat, p: Pending, after: Pending, env: Env, out: Outcome<Option<Snapshot>>) {
    && Later(a, b)
    && (!env.externals ==> b.foreign == a.foreign)
    && RolledBack(a, b, files, identity, p, after, env)
    && (out.Died? ==> env.crashes)
    && (out == Fail(ExternalModification) ==> Foreign(a, b))
    // a write that the backend named replaces older evidence, and a claim
    // outlives our own failures
    && (!out.Died? && !env.silent && !Foreign(a, b) ==> after.evidence == Some(Issued(a, b)))
    && (!out.Died? && Undisturbed(env, a, b) && OwnsIfAny(a, p.evidence) ==> OwnsIfAny(b, after.evidence))
    && (out.Done? && Undisturbed(env, a, b) && (OwnsIfAny(a, p.evidence) || Owns(a, p.target)) ==> out.value.Some?)
    && (out.Done? && Foreign(a, b) ==> out.value in {None, p.evidence, Some(p.target)})
    && (out.Done? && b.foreign == a.foreign ==>
          && StatusOf(b, identity) == Same
          && Last(b).state == p.target.state
          && (out.value.Some? ==> Owns(b, out.value.value)))
    && (Quiet(env, a, b) && StatusOf(a, identity) == Same && (Last(a).state == p.target.state || OwnsIfAny(a, p.evidence)) ==>
          !out.Fail?)
    && (Refusing(env) && StatusOf(a, identity) == Same && Last(a).state != p.target.state && OwnsIfAny(a, p.evidence) ==>
          out == Fail(Platform) && after == p)
    && (env.refuses ==> Foreign(a, b))
  }

  /** A rollback from evidence that continues from `base`. */
  predicate Compensation(a: Native, b: Native, files: Files, identity: nat, p: Pending, after: Pending, base: DnsState, env: Env, out: Outcome<Option<Snapshot>>) {
    && Undoing(a, b, files, identity, p, after, env, out)
    && PendingOk(b, after, base)
    && (out.Done? ==> Reached(b, p.target, out.value, base))
  }

  /** What makes a rollback proper: the resource is in order, the evidence
      continues from `base`, and a write could be undone from the journal. */
  predicate Proper(n: Native, files: Files, p: Pending, lease: nat, base: DnsState, identity: nat) {
    DurableOk(n, files) && PendingOk(n, p, base) && MayUndo(n, files, p, lease, base, identity)
  }

  lemma IsProper(n: Native, files: Files, p: Pending, lease: nat, base: DnsState, identity: nat)
    requires DurableOk(n, files) && PendingOk(n, p, base) && MayUndo(n, files, p, lease, base, identity)
    ensures Proper(n, files, p, lease, base, identity)
    ensures p.evidence.Some? ==> Dated(n, p.evidence.value)
  {
  }

  lemma PendingStays(a: Native, b: Native, p: Pending, base: DnsState)
    requires Later(a, b) && PendingOk(a, p, base)
    ensures PendingOk(b, p, base)
  {
  }

  /** A write of this engine is evidence for the base it continued. */
  lemma IssuedIsEvidence(a: Native, b: Native, files: Files, lease: nat, expected: Snapshot, base: DnsState, identity: nat)
    requires DurableOk(a, files) && Wrote(a, b, files)
    requires Owns(a, expected) && Evidence(a, expected, base)
    requires HasFile(files, lease, base, identity) || (a.disclaimed && files == map[] && Last(a).writer.Engine? && Generation(a) !in a.adopted)
    requires identity == Last(a).incarnation
    ensures DurableOk(b, files) && Later(a, b)
    ensures Evidence(b, Issued(a, b), base) && IssuedByEngine(b, Issued(a, b))
  {
    DurableUnderWrite(a, b, files, lease, expected, base, identity);
  }

  /** Generations are never reused: a state that an earlier snapshot still
      names was not touched in between. */
  lemma StillOwned(a: Native, b: Native, s: Snapshot)
    requires Foreign(a, b) && Faithful(a, s)
    ensures Owns(b, s) ==> b == a
  {
  }

  /** The incarnation-checked path to a compare-and-mutate write. */
  method BoundWrite(env: Env, res: Resource, identity: nat, expected: Snapshot, intended: DnsState) returns (r: Attempt)
    requires Faithful(res.native, expected)
    modifies res`native
    ensures r.Rejected? ==>
              && Foreign(old(res.native), res.native)
              && (!env.failures ==> !Owns(res.native, expected) || StatusOf(res.native, identity) != Same)
    ensures !r.Rejected? ==> AttemptOk(old(res.native), res.native, res.files, expected, intended, env, r)
    ensures env.refuses ==> Foreign(old(res.native), res.native) && !r.Performed?
    ensures Refusing(env) && StatusOf(old(res.native), identity) == Same ==> r == Indeterminate(Platform, None)
    ensures Foreign(old(res.native), res.native) || identity == Last(old(res.native)).incarnation
    ensures !env.externals ==> res.native.foreign == old(res.native).foreign
  {
    ghost var a := res.native;
    var status := res.Status(env, identity);
    match status {
      case Died => return Killed;
      case Fail(error) => return Rejected(error);
      case Done(s) =>
        if s != Same {
          return Rejected(ResourceIdentity);
        }
    }
    ghost var m := res.native;
    StillOwned(a, m, expected);
    r := res.GuardedWrite(env, expected, intended);
    if Foreign(m, res.native) {
      ForeignTransitive(a, m, res.native);
    }
  }

  /** The present state of a resource that is still the recorded incarnation. */
  method Inspect(env: Env, res: Resource, identity: nat) returns (r: Outcome<Snapshot>)
    modifies res`native
    ensures Foreign(old(res.native), res.native) && (!env.externals ==> res.native == old(res.native))
    ensures r.Done? ==> res.native.present && r.value == Current(res.native)
    ensures r.Done? && res.native.foreign == old(res.native).foreign ==> StatusOf(res.native, identity) == Same
    ensures !env.failures && res.native.foreign == old(res.native).foreign && StatusOf(old(res.native), identity) == Same ==> !r.Fail?
    ensures r.Died? ==> env.crashes
  {
    ghost var a := res.native;
    var status :- res.Status(env, identity);
    if status != Same {
      return Fail(ResourceIdentity);
    }
    ghost var a1 := res.native;
    r := res.Readback(env);
    ForeignTransitive(a, a1, res.native);
  }

  /** Reads a restored resource back and checks it against the target. */
  method VerifyTarget(env: Env, res: Resource, identity: nat, target: Snapshot) returns (r: Outcome<Snapshot>)
    modifies res`native
    ensures Foreign(old(res.native), res.native) && (!env.externals ==> res.native == old(res.native))
    ensures r.Done? ==>
              && r.value.state == target.state
              && Faithful(res.native, r.value)
              && (res.native.present ==> Current(res.native) == r.value || Last(res.native).writer.External?)
    ensures r.Done? && res.native.foreign == old(res.native).foreign ==>
              StatusOf(res.native, identity) == Same && Owns(res.native, r.value)
    ensures Quiet(env, old(res.native), res.native) && StatusOf(old(res.native), identity) == Same && Last(old(res.native)).state == target.state ==> !r.Fail?
    ensures r.Fail? ==> r.error != ExternalModification
    ensures r.Died? ==> env.crashes
  {
    ghost var a := res.native;
    var now :- res.Readback(env);
    ghost var a1 := res.native;
    var status := res.Status(env, identity);
    ForeignTransitive(a, a1, res.native);
    var s :- status;
    if s != Same || now.state != target.state {
      return Fail(VerificationFailed);
    }
    return Done(now);
  }

  /** Takes the resource back to `pending.target`: by nothing but looking if it is
      there already, else by one write over the generation that the evidence names.
      `after` carries the identity of that write, however the call ends. */
  method Compensate(env: Env, res: Resource, identity: nat, pending: Pending, ghost lease: nat, ghost base: DnsState, ghost proper: bool)
    returns (r: Outcome<Option<Snapshot>>, after: Pending)
    requires proper ==> Proper(res.native, res.files, pending, lease, base, identity)
    requires pending.evidence.Some? ==> Dated(res.native, pending.evidence.value)
    modifies res`native
    ensures Undoing(old(res.native), res.native, res.files, identity, pending, after, env, r)
    ensures proper ==> DurableOk(res.native, res.files) && Compensation(old(res.native), res.native, res.files, identity, pending, after, base, env, r)
  {
    hide DurableOk;
    after := pending;
    ghost var a := res.native;
    var reading := Inspect(env, res, identity);
    ForeignIsLater(a, res.native);
    ForeignIsCounted(a, res.native);
    if proper {
      DurableUnderForeign(a, res.native, res.files);
      PendingStays(a, res.native, pending, base);
    }
    var current :- reading;
    if current.state == pending.target.state {
      if pending.evidence.Some? && current == pending.evidence.value {
        return Done(pending.evidence), after;
      }
      return Done(if current == pending.target then Some(pending.target) else None), after;
    }
    if pending.evidence.None? {
      return Fail(IndeterminateMutation), after;
    }
    var proof := pending.evidence.value;
    if current != proof {
      return Fail(ExternalModification), after;
    }
    StaysStale(a, res.native, proof);
    r, after := UndoWrite(env, res, identity, pending, lease, base, proper);
  }

  /** The generation that the snapshot names has been reached. */
  predicate Dated(n: Native, s: Snapshot) { s.generation < |n.log| }

  lemma StaysStale(a: Native, b: Native, s: Snapshot)
    requires Foreign(a, b) && Dated(a, s)
    ensures Owns(b, s) ==> b == a
  {
  }

  /** One write over owned evidence, back to the target. */
  method WriteBack(env: Env, res: Resource, identity: nat, pending: Pending, ghost lease: nat, ghost base: DnsState, ghost proper: bool)
    returns (r: Attempt, after: Pending)
    requires proper ==> Proper(res.native, res.files, pending, lease, base, identity)
    requires OwnsIfAny(res.native, pending.evidence) && Last(res.native).state != pending.target.state
    modifies res`native
    ensures proper ==> DurableOk(res.native, res.files) && PendingOk(res.native, after, base)
    ensures Later(old(res.native), res.native)
    ensures RolledBack(old(res.native), res.native, res.files, identity, pending, after, env)
    ensures r.Performed? ==>
              && Overwrote(old(res.native), res.native, res.files, pending.evidence.value, pending.target.state, env)
              && after == Pending(r.produced, pending.target)
              && (after.evidence.Some? ==> after.evidence.value == Issued(old(res.native), res.native))
              && (after.evidence.None? ==> env.silent)
    ensures !r.Killed? && !env.silent && !Foreign(old(res.native), res.native) ==> after.evidence == Some(Issued(old(res.native), res.native))
    ensures Quiet(env, old(res.native), res.native) && StatusOf(old(res.native), identity) == Same ==> r.Performed? || r.Killed?
    ensures !env.externals ==> res.native.foreign == old(res.native).foreign
    ensures r.Rejected? ==> Foreign(old(res.native), res.native)
    ensures r.Indeterminate? ==> r.error != ExternalModification
    ensures r.Killed? ==> env.crashes
    ensures env.refuses ==> Foreign(old(res.native), res.native) && !r.Performed?
    ensures Refusing(env) && StatusOf(old(res.native), identity) == Same ==> r == Indeterminate(Platform, None) && after == pending
  {
    hide DurableOk, WfNative, PendingOk, MayUndo, Later;
    after := pending;
    ghost var a := res.native;
    r := BoundWrite(env, res, identity, pending.evidence.value, pending.target.state);
    if r.Performed? || (r.Indeterminate? && r.produced.Some?) {
      after := Pending(r.produced, pending.target);
    }
    AttemptIsLater(a, res.native, res.files);
    if proper {
      ProperAttempt(a, res.native, res.files, pending, after, lease, base, identity);
    }
  }

  lemma AttemptIsLater(a: Native, b: Native, files: Files)
    requires Foreign(a, b) || Wrote(a, b, files)
    ensures Later(a, b)
    ensures Foreign(a, b) ==> !Wrote(a, b, files) && (a.foreign == b.foreign ==> b == a)
  {
    if Foreign(a, b) {
      ForeignIsLater(a, b);
      ForeignIsCounted(a, b);
      if Wrote(a, b, files) {
        WroteIsNotForeign(a, b, files);
      }
    }
  }

  /** A proper write keeps everything in order, whatever evidence is kept. */
  lemma ProperAttempt(a: Native, b: Native, files: Files, p: Pending, after: Pending, lease: nat, base: DnsState, identity: nat)
    requires Proper(a, files, p, lease, base, identity) && OwnsIfAny(a, p.evidence) && Last(a).state != p.target.state
    requires Foreign(a, b) || (Wrote(a, b, files) && identity == Last(a).incarnation)
    requires after.target == p.target && (after.evidence in {None, p.evidence} || (!Foreign(a, b) && after.evidence == Some(Issued(a, b))))
    ensures DurableOk(b, files) && PendingOk(b, after, base)
  {
    if Foreign(a, b) {
      DurableUnderForeign(a, b, files);
    } else {
      OwnedAwayFromTarget(a, p, base);
      IssuedIsEvidence(a, b, files, lease, p.evidence.value, base, identity);
    }
    PendingStays(a, b, p, base);
  }

  /** The writing half of a rollback: the evidence names the present state. */
  method UndoWrite(env: Env, res: Resource, identity: nat, pending: Pending, ghost lease: nat, ghost base: DnsState, ghost proper: bool)
    returns (r: Outcome<Option<Snapshot>>, after: Pending)
    requires proper ==> Proper(res.native, res.files, pending, lease, base, identity)
    requires OwnsIfAny(res.native, pending.evidence) && Last(res.native).state != pending.target.state
    modifies res`native
    ensures Undoing(old(res.native), res.native, res.files, identity, pending, after, env, r)
    ensures proper ==> DurableOk(res.native, res.files) && Compensation(old(res.native), res.native, res.files, identity, pending, after, base, env, r)
  {
    hide WfNative, DurableOk, PendingOk, RolledBack, Compensation, Undoing, Foreign, Later, Overwrote, Proper, Reached;
    ghost var a := res.native;
    var attempt;
    attempt, after := WriteBack(env, res, identity, pending, lease, base, proper);
    ghost var b := res.native;
    if !attempt.Performed? {
      r := if attempt.Killed? then Died else Fail(attempt.error);
      WriteBackFailed(a, b, res.files, identity, pending, after, env, attempt, r);
      if proper {
        NotYetReached(a, b, res.files, identity, pending, after, base, env, r);
      }
      return;
    }
    var reading := VerifyTarget(env, res, identity, pending.target);
    ghost var c := res.native;
    PerformedStays(a, b, c, res.files, identity, pending, after, env);
    r := match reading
      case Done(now) => Done(if after.evidence == Some(now) then after.evidence else None)
      case Fail(error) => Fail(error)
      case Died => Died;
    WriteBackRead(a, b, c, res.files, identity, pending, after, env, reading, r);
    if proper {
      DurableUnderForeign(b, c, res.files);
      PendingStays(b, c, after, base);
      ReadIsReached(a, c, res.files, identity, pending, after, base, env, reading, r);
    }
  }

  lemma NotYetReached(a: Native, b: Native, files: Files, identity: nat, p: Pending, after: Pending, base: DnsState, env: Env, out: Outcome<Option<Snapshot>>)
    requires Undoing(a, b, files, identity, p, after, env, out) && PendingOk(b, after, base) && !out.Done?
    ensures Compensation(a, b, files, identity, p, after, base, env, out)
  {
  }

  lemma ReadIsReached(a: Native, c: Native, files: Files, identity: nat, p: Pending, after: Pending, base: DnsState, env: Env, reading: Outcome<Snapshot>, out: Outcome<Option<Snapshot>>)
    requires Undoing(a, c, files, identity, p, after, env, out) && PendingOk(c, after, base)
    requires reading.Done? ==>
               && reading.value.state == p.target.state
               && (c.present ==> Current(c) == reading.value || Last(c).writer.External?)
    requires out == match reading
               case Done(now) => Done(if after.evidence == Some(now) then after.evidence else None)
               case Fail(error) => Fail(error)
               case Died => Died
    ensures Compensation(a, c, files, identity, p, after, base, env, out)
  {
  }

  lemma WriteBackFailed(a: Native, b: Native, files: Files, identity: nat, p: Pending, after: Pending, env: Env, attempt: Attempt, out: Outcome<Option<Snapshot>>)
    requires Later(a, b) && RolledBack(a, b, files, identity, p, after, env)
    requires !env.externals ==> b.foreign == a.foreign
    requires !attempt.Performed? && out == if attempt.Killed? then Died else Fail(attempt.error)
    requires Quiet(env, a, b) && StatusOf(a, identity) == Same ==> attempt.Killed?
    requires attempt.Rejected? ==> Foreign(a, b)
    requires attempt.Indeterminate? ==> attempt.error != ExternalModification
    requires attempt.Killed? ==> env.crashes
    requires !attempt.Killed? && !env.silent && !Foreign(a, b) ==> after.evidence == Some(Issued(a, b))
    requires env.refuses ==> Foreign(a, b)
    requires Refusing(env) && StatusOf(a, identity) == Same ==> attempt == Indeterminate(Platform, None) && after == p
    ensures Undoing(a, b, files, identity, p, after, env, out)
  {
  }

  lemma PerformedStays(a: Native, b: Native, c: Native, files: Files, identity: nat, p: Pending, after: Pending, env: Env)
    requires RolledBack(a, b, files, identity, p, after, env) && Foreign(b, c)
    requires p.evidence.Some? && Overwrote(a, b, files, p.evidence.value, p.target.state, env) && Later(a, b)
    ensures RolledBack(a, c, files, identity, p, after, env)
    ensures Wrote(a, c, files) && c.log[|a.log|] == b.log[|a.log|] && !Foreign(a, c)
    ensures Later(b, c) && Later(a, c)
  {
    RolledBackStays(a, b, c, files, identity, p, after, env);
    WroteThenForeign(a, b, c, files);
    WroteIsNotForeign(a, c, files);
    ForeignIsLater(b, c);
  }

  lemma WriteBackRead(a: Native, b: Native, c: Native, files: Files, identity: nat, p: Pending, after: Pending, env: Env, reading: Outcome<Snapshot>, out: Outcome<Option<Snapshot>>)
    requires p.evidence.Some? && Overwrote(a, b, files, p.evidence.value, p.target.state, env)
    requires after.target == p.target && (after.evidence.Some? ==> after.evidence.value == Issued(a, b)) && (after.evidence.None? ==> env.silent)
    requires Later(a, b) && Later(b, c) && Later(a, c) && Foreign(b, c) && !Foreign(a, c)
    requires p.evidence.value.state != p.target.state && RolledBack(a, c, files, identity, p, after, env)
    requires !env.externals ==> c.foreign == a.foreign
    requires reading.Done? ==>
               && reading.value.state == p.target.state
               && (c.present ==> Current(c) == reading.value || Last(c).writer.External?)
    requires reading.Done? && c.foreign == b.foreign ==> StatusOf(c, identity) == Same && Owns(c, reading.value)
    requires Quiet(env, b, c) && StatusOf(b, identity) == Same && Last(b).state == p.target.state ==> !reading.Fail?
    requires reading.Fail? ==> reading.error != ExternalModification
    requires (reading.Died? ==> env.crashes) && !env.refuses
    requires out == match reading
               case Done(now) => Done(if after.evidence == Some(now) then after.evidence else None)
               case Fail(error) => Fail(error)
               case Died => Died
    ensures Undoing(a, c, files, identity, p, after, env, out)
  {
  }

  lemma RolledBackStays(a: Native, b: Native, c: Native, files: Files, identity: nat, p: Pending, after: Pending, env: Env)
    requires RolledBack(a, b, files, identity, p, after, env) && Foreign(b, c)
    ensures RolledBack(a, c, files, identity, p, after, env)
  {
    if Foreign(a, b) && after == p {
      ForeignTransitive(a, b, c);
    } else {
      WroteThenForeign(a, b, c, files);
    }
  }

  lemma WroteIsNotForeign(a: Native, b: Native, files: Files)
    requires Wrote(a, b, files)
    ensures !Foreign(a, b)
  {
    assert b.log[|a.log|].writer.Engine?;
  }

  lemma WroteThenForeign(a: Native, b: Native, c: Native, files: Files)
    requires Wrote(a, b, files) && Foreign(b, c)
    ensures Wrote(a, c, files)
    ensures c.log[|a.log|] == b.log[|a.log|]
  {
    ForeignTransitive(EngineWrite(a, b.log[|a.log|].state, files), b, c);
  }

  /** A write that nobody followed is the present state. */
  lemma IssuedIsCurrent(a: Native, b: Native, files: Files)
    requires Wrote(a, b, files) && a.foreign == b.foreign
    ensures Owns(b, Issued(a, b))
  {
    ForeignIsCounted(EngineWrite(a, b.log[|a.log|].state, files), b);
  }

  /** Evidence that names a state away from its target names an engine write. */
  lemma OwnedAwayFromTarget(n: Native, p: Pending, base: DnsState)
    requires WfNative(n) && PendingOk(n, p, base) && OwnsIfAny(n, p.evidence)
    requires Last(n).state != p.target.state
    ensures Last(n).writer.Engine? && Generation(n) !in n.adopted
  {
    assert StampOk(n, Generation(n));
  }

  method RollbackProven(env: Env, res: Resource, identity: nat, proof: Option<Snapshot>, target: Snapshot, ghost lease: nat, ghost base: DnsState)
    returns (r: Outcome<Residue>)
    requires DurableOk(res.native, res.files) && PendingOk(res.native, Pending(proof, target), base)
    requires MayUndo(res.native, res.files, Pending(proof, target), lease, base, identity)
    modifies res`native
    ensures DurableOk(res.native, res.files) && Later(old(res.native), res.native)
    ensures r.Done? ==> !r.value.Unchanged? && ResidueOk(old(res.native), res.native, res.files, identity, proof, target, base, r.value, env)
    ensures Quiet(env, old(res.native), res.native) && StatusOf(old(res.native), identity) == Same
            && (Last(old(res.native)).state == target.state || OwnsIfAny(old(res.native), proof)) ==>
              r.Done? ==> r.value.Restored? && (OwnsIfAny(old(res.native), proof) ==> r.value.identity.Some?)
    ensures !env.externals ==> res.native.foreign == old(res.native).foreign
    ensures !r.Fail? && (r.Died? ==> env.crashes)
  {
    var undone, after := Compensate(env, res, identity, Pending(proof, target), lease, base, true);
    match undone {
      case Done(restored) => return Done(Restored(restored));
      case Fail(_) => return Done(Unresolved(after));
      case Died => return Died;
    }
  }

  /** What the residue of a failed mutation or rollback says about the resource. */
  predicate ResidueOk(a: Native, b: Native, files: Files, identity: nat, proof: Option<Snapshot>, target: Snapshot, base: DnsState, residue: Residue, env: Env) {
    match residue
    case Unchanged =>
      Foreign(a, b)
    case Restored(id) =>
      && Reached(b, target, id, base)
      && (b.foreign == a.foreign ==>
            && StatusOf(b, identity) == Same
            && Last(b).state == target.state
            && (id.Some? ==> Owns(b, id.value)))
      && (Undisturbed(env, a, b) && (OwnsIfAny(a, proof) || (proof.None? && Owns(a, target))) ==> id.Some?)
    case Unresolved(p) =>
      && PendingOk(b, p, base)
      && p.target == target
      && (p.evidence.Some? ==> p.evidence == proof || |a.log| <= p.evidence.value.generation)
      && (p.evidence.None? ==> proof.None? || env.silent)
      && (Undisturbed(env, a, b) && (proof.None? || OwnsIfAny(a, proof)) ==>
            if p.evidence.Some? then Owns(b, p.evidence.value) else b == a)
  }

  /** What any attempt over journaled evidence keeps, and what it issues. */
  lemma AttemptKept(a: Native, b: Native, files: Files, lease: nat, expected: Snapshot, base: DnsState, identity: nat)
    requires DurableOk(a, files) && Evidence(a, expected, base) && HasFile(files, lease, base, identity)
    requires Foreign(a, b) || (Owns(a, expected) && Wrote(a, b, files) && identity == Last(a).incarnation)
    ensures DurableOk(b, files) && Later(a, b) && Evidence(b, expected, base)
    ensures !Foreign(a, b) ==>
              && Evidence(b, Issued(a, b), base)
              && IssuedByEngine(b, Issued(a, b))
              && (a.foreign == b.foreign ==> Owns(b, Issued(a, b)))
    ensures Foreign(a, b) && a.foreign == b.foreign ==> b == a
  {
    hide WfNative, DurableOk;
    if Foreign(a, b) {
      DurableUnderForeign(a, b, files);
      ForeignIsCounted(a, b);
    } else {
      IssuedIsEvidence(a, b, files, lease, expected, base, identity);
      if a.foreign == b.foreign {
        IssuedIsCurrent(a, b, files);
      }
    }
    EvidenceStays(a, b, expected, base);
  }

  /** Writes the merge of `plan` into `expected` and looks whether it took effect.
      If it did not, what this call wrote, and nothing else, is taken back. */
  method MutateAndVerify(env: Env, res: Resource, identity: nat, expected: Snapshot, plan: Plan, ghost lease: nat, ghost base: DnsState)
    returns (r: Mutation)
    requires DurableOk(res.native, res.files) && Evidence(res.native, expected, base)
    requires HasFile(res.files, lease, base, identity)
    modifies res`native
    ensures DurableOk(res.native, res.files) && Later(old(res.native), res.native)
    ensures r.Verified? ==> VerifiedOk(old(res.native), res.native, res.files, expected, plan, base, r.mutation, env)
    ensures r.Failed? ==> ResidueOk(old(res.native), res.native, res.files, identity, None, expected, base, r.residue, env)
    ensures Quiet(env, old(res.native), res.native) && Owns(old(res.native), expected) && StatusOf(old(res.native), identity) == Same ==> !r.Failed?
    ensures !env.externals ==> res.native.foreign == old(res.native).foreign
    ensures r.Lost? ==> env.crashes
  {
    hide WfNative, DurableOk, Later, ResidueOk, VerifiedOk;
    ghost var a := res.native;
    var attempt := BoundWrite(env, res, identity, expected, MergeState(expected.state, plan));
    ghost var b := res.native;
    AttemptKept(a, b, res.files, lease, expected, base, identity);
    match attempt {
      case Killed => return Lost;
      case Rejected(error) =>
        RejectedIsUnchanged(a, b, res.files, identity, expected, base, env);
        return Failed(error, Unchanged);
      case Indeterminate(error, produced) =>
        r := FailMutation(env, res, identity, expected, produced, error, a, lease, base);
      case Performed(produced) =>
        r := VerifyMutation(env, res, identity, expected, plan, produced, a, lease, base);
    }
    LaterTransitive(a, b, res.native);
    LaterIsCounted(a, b, res.native, identity);
  }

  lemma LaterIsCounted(a: Native, b: Native, c: Native, identity: nat)
    requires Later(a, b) && Later(b, c)
    ensures a.foreign <= b.foreign <= c.foreign
    ensures a.foreign == b.foreign ==> StatusOf(b, identity) == StatusOf(a, identity)
  {
  }

  lemma RejectedIsUnchanged(a: Native, b: Native, files: Files, identity: nat, expected: Snapshot, base: DnsState, env: Env)
    requires Foreign(a, b)
    ensures ResidueOk(a, b, files, identity, None, expected, base, Unchanged, env)
  {
  }

  /** A verified mutation carries the identity of the write that produced the
      observed state, and that state satisfies the plan. */
  predicate VerifiedOk(a: Native, b: Native, files: Files, expected: Snapshot, plan: Plan, base: DnsState, m: VerifiedMutation, env: Env) {
    && Overwrote(a, b, files, expected, MergeState(expected.state, plan), env)
    && m.proof == Some(Issued(a, b))
    && m.observed == Issued(a, b)
    && StateMatches(m.observed.state, plan)
    && Evidence(b, Issued(a, b), base)
    && IssuedByEngine(b, Issued(a, b))
  }

  method FailMutation(env: Env, res: Resource, identity: nat, expected: Snapshot, produced: Option<Snapshot>, error: Error, ghost a: Native, ghost lease: nat, ghost base: DnsState)
    returns (r: Mutation)
    requires DurableOk(res.native, res.files) && PendingOk(res.native, Pending(produced, expected), base)
    requires HasFile(res.files, lease, base, identity)
    requires Later(a, res.native) && (produced.Some? ==> |a.log| <= produced.value.generation)
    requires produced.Some? && res.native.foreign == a.foreign ==> Owns(res.native, produced.value)
    requires produced.None? && Undisturbed(env, a, res.native) ==> res.native == a
    modifies res`native
    ensures DurableOk(res.native, res.files) && Later(old(res.native), res.native)
    ensures !r.Verified?
    ensures r.Failed? ==> !r.residue.Unchanged? && ResidueOk(a, res.native, res.files, identity, None, expected, base, r.residue, env)
    ensures !env.externals ==> res.native.foreign == old(res.native).foreign
    ensures r.Lost? ==> env.crashes
  {
    var undone := RollbackProven(env, res, identity, produced, expected, lease, base);
    match undone {
      case Done(residue) => return Failed(error, residue);
      case Died => return Lost;
    }
  }

  /** Checks by read-back that the resource satisfies the plan, is still the
      recorded incarnation, and carries the identity of our write. */
  method Confirm(env: Env, res: Resource, identity: nat, plan: Plan, produced: Option<Snapshot>) returns (r: Outcome<Snapshot>)
    modifies res`native
    ensures Foreign(old(res.native), res.native) && (!env.externals ==> res.native == old(res.native))
    ensures r.Done? ==> produced == Some(r.value) && StateMatches(r.value.state, plan)
    ensures Quiet(env, old(res.native), res.native) && produced.Some? && Owns(old(res.native), produced.value) ==>
              StatusOf(old(res.native), identity) == Same && StateMatches(produced.value.state, plan) ==> !r.Fail?
    ensures r.Died? ==> env.crashes
  {
    ghost var a := res.native;
    var actual :- Inspect(env, res, identity);
    if !StateMatches(actual.state, plan) {
      return Fail(VerificationFailed);
    }
    ghost var a1 := res.native;
    var status := res.Status(env, identity);
    ForeignTransitive(a, a1, res.native);
    var s :- status;
    if s != Same {
      return Fail(ResourceIdentity);
    }
    if produced.None? {
      return Fail(VerificationFailed);
    }
    if actual != produced.value {
      return Fail(ExternalModification);
    }
    return Done(actual);
  }

  /** The verifying half of a mutation, after the backend reported success. */
  method VerifyMutation(env: Env, res: Resource, identity: nat, expected: Snapshot, plan: Plan, produced: Option<Snapshot>, ghost a: Native, ghost lease: nat, ghost base: DnsState)
    returns (r: Mutation)
    requires DurableOk(res.native, res.files) && PendingOk(res.native, Pending(produced, expected), base)
    requires HasFile(res.files, lease, base, identity)
    requires Overwrote(a, res.native, res.files, expected, MergeState(expected.state, plan), env) && Later(a, res.native)
    requires if produced.Some? then produced.value == Issued(a, res.native) else env.silent
    requires IssuedByEngine(res.native, Issued(a, res.native))
    modifies res`native
    ensures DurableOk(res.native, res.files) && Later(old(res.native), res.native)
    ensures r.Verified? ==> VerifiedOk(a, res.native, res.files, expected, plan, base, r.mutation, env)
    ensures r.Failed? ==> !r.residue.Unchanged? && ResidueOk(a, res.native, res.files, identity, None, expected, base, r.residue, env)
    ensures Quiet(env, old(res.native), res.native) && produced.Some? && Owns(old(res.native), produced.value) && StatusOf(old(res.native), identity) == Same ==> !r.Failed?
    ensures !env.externals ==> res.native.foreign == old(res.native).foreign
    ensures r.Lost? ==> env.crashes
  {
    hide WfNative, DurableOk, PendingOk, ResidueOk, Foreign, VerifiedOk;
    ghost var b := res.native;
    var confirmed := Confirm(env, res, identity, plan, produced);
    WroteThenForeign(a, b, res.native, res.files);
    DurableUnderForeign(b, res.native, res.files);
    PendingStays(b, res.native, Pending(produced, expected), base);
    if a.foreign == res.native.foreign {
      IssuedIsCurrent(a, res.native, res.files);
    }
    match confirmed {
      case Died => return Lost;
      case Fail(error) =>
        r := FailMutation(env, res, identity, expected, produced, error, a, lease, base);
      case Done(actual) =>
        ConfirmedIsVerified(a, b, res.native, res.files, expected, plan, base, produced, env);
        return Verified(VerifiedMutation(produced, actual));
    }
  }

  lemma ConfirmedIsVerified(a: Native, b: Native, c: Native, files: Files, expected: Snapshot, plan: Plan, base: DnsState, produced: Option<Snapshot>, env: Env)
    requires Overwrote(a, b, files, expected, MergeState(expected.state, plan), env) && Foreign(b, c)
    requires PendingOk(c, Pending(produced, expected), base) && IssuedByEngine(b, Issued(a, b))
    requires produced == Some(Issued(a, b)) && StateMatches(produced.value.state, plan)
    ensures VerifiedOk(a, c, files, expected, plan, base, VerifiedMutation(produced, produced.value), env)
  {
    WroteThenForeign(a, b, c, files);
  }
}
