/** What must hold of a resource and its journal files at every instant, so
    also after the process died in the middle of anything. */
module Durable {
  import opened Dns
  import opened World

  /** At most one record claims the resource. */
  predicate Unique(files: Files) {
    forall l, m :: l in files && m in files ==> l == m
  }

  /** The record's restore base was left by an outside writer, and its
      published evidence continues from that base. */
  predicate RecordOk(n: Native, r: Record) {
    && Evidence(n, r.before, r.before.state)
    && EvidenceIfAny(n, r.applied, r.before.state)
    && (r.phase.Applied? ==> r.applied.Some?)
    && r.identity <= Last(n).incarnation
  }

  /** If the resource shows an overlay, `r` can undo it; the engine wrote no
      other incarnation than the recorded one. */
  predicate Covers(n: Native, r: Record) {
    && (Overlay(n) ==> r.before.state == Base(n) && r.identity == Last(n).incarnation)
    && (n.present && Last(n).incarnation != r.identity ==> Last(n).writer.External?)
  }

  predicate DurableOk(n: Native, files: Files) {
    && WfNative(n)
    && Unique(files)
    && (forall l :: l in files ==> files[l].lease == l && RecordOk(n, files[l]) && Covers(n, files[l]))
    && (Overlay(n) ==> files != map[])
  }

  /** The journal holds a record of `lease` that can undo an overlay on `base`. */
  predicate HasFile(files: Files, lease: nat, base: DnsState, identity: nat) {
    lease in files && files[lease].before.state == base && files[lease].identity == identity
  }

  /** Nothing the engine wrote is left to undo: the resource is absent, back
      at `base`, or last written by someone else. */
  predicate Settled(n: Native, base: DnsState) {
    n.present ==> Last(n).state == base || Last(n).writer.External?
  }

  // ----- what external steps keep

  lemma ForeignIsLater(a: Native, b: Native)
    requires Foreign(a, b)
    ensures Later(a, b)
    ensures WfNative(a) ==> WfNative(b)
  {
  }

  lemma EvidenceStays(a: Native, b: Native, s: Snapshot, base: DnsState)
    requires Later(a, b) && Evidence(a, s, base)
    ensures Evidence(b, s, base)
  {
  }

  lemma RecordStays(a: Native, b: Native, r: Record)
    requires Later(a, b) && RecordOk(a, r)
    ensures RecordOk(b, r)
  {
  }

  /** An external write is its own base. */
  lemma ForeignClears(a: Native, b: Native)
    requires WfNative(a) && Foreign(a, b)
    ensures b == a || !Overlay(b)
    ensures !Overlay(a) ==> !Overlay(b)
    ensures forall base :: Settled(a, base) ==> Settled(b, base)
    ensures forall s: Snapshot :: s.generation < |a.log| && Owns(b, s) ==> b == a
  {
    if b != a && b.present {
      assert Last(b).writer.External?;
      assert StampOk(b, Generation(b));
    }
  }

  lemma DurableUnderForeign(a: Native, b: Native, files: Files)
    requires DurableOk(a, files) && Foreign(a, b)
    ensures DurableOk(b, files) && Later(a, b)
  {
    ForeignIsLater(a, b);
    ForeignClears(a, b);
    forall l | l in files
      ensures RecordOk(b, files[l]) && Covers(b, files[l])
    {
      RecordStays(a, b, files[l]);
    }
  }

  // ----- what the engine's own steps keep

  /** A write over `expected` keeps the journal able to undo the resource
      when `expected` continues from a base that the journal holds, or when
      the write goes back to that base. */
  lemma DurableUnderWrite(a: Native, b: Native, files: Files, lease: nat, expected: Snapshot, base: DnsState, identity: nat)
    requires DurableOk(a, files) && Wrote(a, b, files)
    requires Owns(a, expected) && Evidence(a, expected, base)
    requires Last(a).writer.External? || Generation(a) in a.adopted ==> HasFile(files, lease, base, identity)
    requires HasFile(files, lease, base, identity) || (a.disclaimed && files == map[])
    requires HasFile(files, lease, base, identity) ==> identity == Last(a).incarnation
    ensures DurableOk(b, files) && Later(a, b)
    ensures Evidence(b, Snapshot(b.log[|a.log|].state, |a.log|), base)
  {
    if Last(a).writer.External? || Generation(a) in a.adopted {
      assert StampOk(a, Generation(a));
      assert Last(a).state == base;
      assert Saves(files, base);
    }
    WroteIsLater(a, b, files);
    var m := EngineWrite(a, b.log[|a.log|].state, files);
    assert Later(a, m);
    assert b.log[|a.log|] == Last(m);
    Appended(a, m);
    assert DurableOk(m, files) by {
      forall l | l in files ensures RecordOk(m, files[l]) && Covers(m, files[l]) {
        RecordStays(a, m, files[l]);
      }
    }
    DurableUnderForeign(m, b, files);
  }

  /** Every journal file is true of the past, at whatever instant it is read, and
      stays so under everything that happens to the resource afterwards. */
  lemma PublishedStaysTruthful(a: Native, files: Files, b: Native, lease: nat)
    requires DurableOk(a, files) && lease in files
    requires a.log <= b.log && AdoptedOnlyLast(a, b)
    ensures Truthful(a, files[lease]) && Truthful(b, files[lease])
  {
    assert RecordOk(a, files[lease]);
    TruthStays(a, b, files[lease]);
  }

  /** Reading a record of the journal. */
  lemma DurableUnderNote(n: Native, files: Files, r: Record)
    requires DurableOk(n, files) && r.lease in files && files[r.lease] == r
    ensures DurableOk(Noted(n, r), files)
  {
    assert RecordOk(n, r);
    Appended(n, Noted(n, r));
  }

  /** Publishing a record of the lease that already holds the resource. */
  lemma DurableUnderPublish(n: Native, files: Files, r: Record)
    requires DurableOk(n, files) && RecordOk(n, r) && Covers(n, r)
    requires forall l :: l in files ==> l == r.lease
    ensures DurableOk(n, files[r.lease := r])
  {
  }

  /** Removing the record of a resource that shows no overlay. */
  lemma DurableUnderRemove(n: Native, files: Files, lease: nat)
    requires DurableOk(n, files) && !Overlay(n)
    ensures DurableOk(n, files - {lease})
  {
  }

  // ----- what the invariant means

  /** Only an outside writer, or an adopted state, can be the origin of a base. */
  lemma {:induction false} BaseHasForeignOrigin(n: Native, g: nat)
    requires WfNative(n) && g < |n.log|
    ensures exists h: nat :: h <= g && n.log[h].state == BaseAt(n, g) && (n.log[h].writer.External? || h in n.adopted)
    decreases g
  {
    assert StampOk(n, g);
    if g in n.adopted || n.log[g].writer.External? {
      assert n.log[g].state == BaseAt(n, g);
    } else {
      assert g - 1 in n.adopted || BaseAt(n, g - 1) == n.log[g - 1].base;
      if g - 1 in n.adopted && n.log[g].base == n.log[g - 1].state {
      } else if g - 1 in n.adopted {
        BaseOfLog(n, g - 1);
      } else {
        BaseHasForeignOrigin(n, g - 1);
      }
    }
  }

  lemma {:induction false} BaseOfLog(n: Native, g: nat)
    requires WfNative(n) && g < |n.log|
    ensures exists h: nat :: h <= g && n.log[h].state == n.log[g].base && (n.log[h].writer.External? || h in n.adopted)
    decreases g
  {
    assert StampOk(n, g);
    if n.log[g].writer.Engine? && n.log[g].base != n.log[g - 1].state {
      BaseOfLog(n, g - 1);
    } else if n.log[g].writer.Engine? && g - 1 !in n.adopted {
      BaseOfLog(n, g - 1);
    }
  }

  /** No engine write ever replaced a state of an outside writer, or one that was
      abandoned and adopted, that was not at that moment the `before` of a
      journal record of the resource. */
  predicate NothingLost(n: Native) {
    forall g: nat :: g < |n.log| - 1 ==> LosesNothing(n, g)
  }

  predicate LosesNothing(n: Native, g: nat)
    requires g < |n.log| - 1
  {
    n.log[g + 1].writer.Engine? && (n.log[g].writer.External? || g in n.adopted) ==>
      Saves(n.log[g + 1].writer.journal, n.log[g].state)
  }

  /** Whatever the engine left on the resource, the journal can undo. */
  predicate WrittenAhead(n: Native, files: Files) {
    n.present && !n.disclaimed && Last(n).state != Base(n) ==>
      exists lease :: lease in files && files[lease].before.state == Base(n) && files[lease].identity == Last(n).incarnation
  }

  /** Every restore base is a state that an outside writer left, or the one state
      that was abandoned before it was adopted as a base. */
  predicate BasesAreForeign(n: Native, files: Files) {
    forall lease :: lease in files ==>
      exists h: nat :: h < |n.log| && n.log[h].state == files[lease].before.state && (n.log[h].writer.External? || h in n.adopted)
  }

  /** What the invariant of a resource says about its past and its journal. */
  lemma DurableIsSafe(n: Native, files: Files)
    requires DurableOk(n, files)
    ensures NothingLost(n) && WrittenAhead(n, files) && BasesAreForeign(n, files) && |files| <= 1
  {
    forall g: nat | g < |n.log| - 1 ensures LosesNothing(n, g) {
      assert StampOk(n, g + 1) && Saved(n, g + 1);
    }
    if Overlay(n) {
      var lease :| lease in files;
      assert Covers(n, files[lease]);
    }
    forall lease | lease in files
      ensures exists h: nat :: h < |n.log| && n.log[h].state == files[lease].before.state && (n.log[h].writer.External? || h in n.adopted)
    {
      assert RecordOk(n, files[lease]);
      BaseHasForeignOrigin(n, files[lease].before.generation);
    }
    if lease :| lease in files {
      assert files.Keys == {lease};
      assert |files.Keys| == 1;
    } else {
      assert files == map[];
    }
  }
}
