/** The runtime lifecycle of one leased resource. */
module Live {
  import opened Dns
  import opened World
  import opened Durable
  import opened Backend
  import opened Engine

  datatype LiveState =
    | Committed
    | Unmutated
    | Prepared
    | Verified(mutation: VerifiedMutation)
    | Compensating(pending: Pending, resume: Record)
    | Repair(next: LiveState)

  /** The record that finalizing a verified mutation publishes. */
  function Finalized(r: Record, m: VerifiedMutation): Record {
    r.(phase := Applied, applied := Some(m.Persist()))
  }

  /** What the engine knows about the present state, by lifecycle state. */
  predicate TracksCore(n: Native, r: Record, s: LiveState) {
    match s
    case Committed =>
      && r.phase.Applied? && r.applied.Some?
      && StateMatches(r.applied.value.state, r.desired)
      && (Overlay(n) ==> Generation(n) == r.applied.value.generation)
    case Unmutated =>
      && r.phase.Prepared? && r.applied.None?
      && (Overlay(n) ==> StateMatches(Last(n).state, r.desired))
    case Verified(m) =>
      && r.phase.Prepared?
      && m.proof == Some(m.observed)
      && Evidence(n, m.observed, r.before.state)
      && StateMatches(m.observed.state, r.desired)
      && (Overlay(n) ==> Generation(n) == m.observed.generation)
    case Compensating(p, resume) =>
      && PendingOk(n, p, r.before.state)
      && resume == r.(phase := resume.phase, applied := resume.applied)
      && (resume.phase.Applied? ==> StateMatches(p.target.state, r.desired))
      && (resume.phase.Prepared? ==> p.target.state == r.before.state && resume.applied.None?)
    case Prepared => false
    case Repair(_) => false
  }

  /** A journal repair wraps exactly one settled state. */
  predicate Tracks(n: Native, r: Record, s: LiveState) {
    if s.Repair? then !s.next.Verified? && TracksCore(n, r, s.next) else TracksCore(n, r, s)
  }

  /** How the journal file of the lease relates to the live record. */
  predicate FileOk(n: Native, files: Files, r: Record, s: LiveState, registered: bool) {
    && (forall l :: l in files ==> l == r.lease)
    && (registered ==> !n.disclaimed)
    && (registered && StatusOf(n, r.identity) == Same ==> Synced(files, r, s))
    && (!s.Repair? && r.lease in files ==> files[r.lease].before == r.before && files[r.lease].identity == r.identity)
    && (r.lease !in files ==> Settled(n, r.before.state) || n.disclaimed)
  }

  /** While the lease is active, the durable record is the live record, except
      for a publication that failed or is still outstanding. */
  predicate Synced(files: Files, r: Record, s: LiveState) {
    && r.lease in files
    && (s.Verified? ==> files[r.lease] in {r, Finalized(r, s.mutation)})
    && (!s.Verified? && !s.Repair? ==> files[r.lease] == r)
  }

  predicate LiveOk(n: Native, files: Files, r: Record, s: LiveState, registered: bool) {
    && RecordOk(n, r)
    && Covers(n, r)
    && Tracks(n, r, s)
    && FileOk(n, files, r, s, registered)
  }

  /** The identity under which the lease could still own the present state. */
  function EvidenceOf(r: Record, s: LiveState): Option<Snapshot> {
    match Core(s)
    case Committed => r.applied
    case Verified(m) => Some(m.Persist())
    case Compensating(p, _) => p.evidence
    case _ => None
  }

  function Core(s: LiveState): LiveState { if s.Repair? then s.next else s }

  /** The lease can prove that it owns the present state: by the evidence of
      its latest write, or because an undone update left the old overlay. */
  predicate OwnsClaim(n: Native, r: Record, s: LiveState) {
    || OwnsIfAny(n, EvidenceOf(r, s))
    || (Core(s).Compensating? && Owns(n, Core(s).pending.target))
  }

  lemma LiveUnderForeign(a: Native, b: Native, files: Files, r: Record, s: LiveState, registered: bool)
    requires WfNative(a) && Foreign(a, b) && LiveOk(a, files, r, s, registered)
    ensures LiveOk(b, files, r, s, registered)
  {
    ForeignIsLater(a, b);
    ForeignClears(a, b);
    RecordStays(a, b, r);
    var core := if s.Repair? then s.next else s;
    match core {
      case Verified(m) => EvidenceStays(a, b, m.observed, r.before.state);
      case Compensating(p, _) => PendingStays(a, b, p, r.before.state);
      case _ =>
    }
  }

  /** External steps keep everything a live record claims. */
  lemma ValidUnderForeign(a: Native, b: Native, files: Files, r: Record, s: LiveState, registered: bool)
    requires DurableOk(a, files) && Foreign(a, b) && LiveOk(a, files, r, s, registered)
    ensures DurableOk(b, files) && LiveOk(b, files, r, s, registered) && Later(a, b)
    ensures a.foreign == b.foreign ==> a == b
  {
    DurableUnderForeign(a, b, files);
    LiveUnderForeign(a, b, files, r, s, registered);
  }

  /** A live record says nothing about who reads the journal. */
  lemma ValidUnderNote(n: Native, files: Files, r: Record, s: LiveState, registered: bool, listed: Record)
    requires DurableOk(n, files) && LiveOk(n, files, r, s, registered)
    requires listed.lease in files && files[listed.lease] == listed
    ensures DurableOk(Noted(n, listed), files) && LiveOk(Noted(n, listed), files, r, s, registered)
  {
    DurableUnderNote(n, files, listed);
    var core := if s.Repair? then s.next else s;
    if core.Compensating? {
      assert PendingOk(Noted(n, listed), core.pending, r.before.state);
    }
  }

  /** No external step makes a stale identity name the present state again. */
  lemma ClaimsDoNotAppear(a: Native, b: Native, files: Files, r: Record, s: LiveState, registered: bool)
    requires Foreign(a, b) && LiveOk(a, files, r, s, registered)
    ensures OwnsClaim(b, r, s) ==> b == a
  {
    if OwnsIfAny(b, EvidenceOf(r, s)) {
      StillOwned(a, b, EvidenceOf(r, s).value);
    } else if OwnsClaim(b, r, s) {
      StillOwned(a, b, Core(s).pending.target);
    }
  }

  lemma LiveParts(n: Native, files: Files, r: Record, s: LiveState, registered: bool)
    requires LiveOk(n, files, r, s, registered)
    ensures RecordOk(n, r) && Covers(n, r)
    ensures forall l :: l in files ==> l == r.lease
    ensures s.Compensating? ==>
              && PendingOk(n, s.pending, r.before.state)
              && (s.resume.phase.Prepared? ==> s.pending.target.state == r.before.state)
              && s.resume == r.(phase := s.resume.phase, applied := s.resume.applied)
  {
  }

  /** What the lifecycle promises between operations. */
  predicate WellFormed(n: Native, files: Files, r: Record, s: LiveState, registered: bool) {
    && s != LiveState.Prepared
    && (s.Repair? ==> s.next.Committed? || s.next.Unmutated? || s.next.Compensating?)
    && (s.Committed? ==> r.phase.Applied? && r.applied.Some? && StateMatches(r.applied.value.state, r.desired))
    // an owned state cannot disagree with what is desired
    && (s.Committed? && OwnsIfAny(n, r.applied) ==> StateMatches(Last(n).state, r.desired))
    // while the lease is active, the durable record is the live record
    && (registered && StatusOf(n, r.identity) == Same && !s.Repair? ==>
          r.lease in files && (files[r.lease] == r || (s.Verified? && files[r.lease] == Finalized(r, s.mutation))))
    // the journal and the live record never disagree about the way back
    && (!s.Repair? && r.lease in files ==> files[r.lease].before == r.before)
  }

  lemma LiveIsWellFormed(n: Native, files: Files, r: Record, s: LiveState, registered: bool)
    requires LiveOk(n, files, r, s, registered)
    ensures WellFormed(n, files, r, s, registered)
  {
  }

  class LiveRecord {
    const res: Resource
    var record: Record
    var state: LiveState
    /** Whether the manager still reconciles and updates this resource. */
    var registered: bool

    ghost predicate Valid()
      reads this, res
    {
      && DurableOk(res.native, res.files)
      && LiveOk(res.native, res.files, record, state, registered)
    }

    constructor (res: Resource, record: Record)
      ensures this.res == res && this.record == record && state == LiveState.Prepared && registered
    {
      this.res := res;
      this.record := record;
      state := LiveState.Prepared;
      registered := true;
    }

    /** The verified active overlay, if the lease has one. */
    function Applied(): Option<Snapshot>
      reads this
    {
      if state == Committed then record.applied else None
    }
  }
}
