/** One OS resource as the engine and every other writer see it: the whole
    write history of its native state, and the journal records naming it.

    Every write of a resource is one entry of `log`; the generation of a write
    is its index, so generations strictly increase and are never reused. */
module World {
  import opened Dns

  /** A capture: the managed state and the generation it was read at. */
  datatype Snapshot = Snapshot(state: DnsState, generation: nat)

  datatype Phase = Prepared | Applied

  /** What a journal file says about one resource of one lease. `identity` is the
      incarnation that was captured with `before`. */
  datatype Record = Record(
    owner: string,
    lease: nat,
    identity: nat,
    phase: Phase,
    before: Snapshot,
    desired: Plan,
    applied: Option<Snapshot>)

  /** The journal files naming one resource, by lease. */
  type Files = map<nat, Record>

  /** Who wrote a generation. An engine write remembers the journal files of
      the resource at that moment. */
  datatype Writer = External | Engine(journal: Files)

  /** One write. `base` is the state the last outside writer left: it is the
      state itself for an external write and is inherited by an engine write. */
  datatype Stamp = Stamp(state: DnsState, incarnation: nat, base: DnsState, writer: Writer)

  /** The native side of a resource and its history. The generations in
      `adopted` were abandoned by their owner before a later lease captured them,
      and count as left by an outside writer. `disclaimed`
      says that the claim on the present state was given up by its owner and
      no later lease captured the resource. `foreign` counts external steps.
      `listed` are the journal records of the resource that some process has
      read in order to recover them, at any time. */
  datatype Cell = Cell(present: bool, log: seq<Stamp>, adopted: set<nat>, disclaimed: bool, foreign: nat, listed: set<Record>)

  type Native = c: Cell | c.log != []
    witness Cell(true, [Stamp(Empty, 0, Empty, External)], {}, false, 0, {})

  function Generation(n: Native): nat { |n.log| - 1 }

  function Last(n: Native): Stamp { n.log[Generation(n)] }

  function Current(n: Native): Snapshot { Snapshot(Last(n).state, Generation(n)) }

  function BaseAt(n: Native, g: nat): DnsState
    requires g < |n.log|
  {
    if g in n.adopted then n.log[g].state else n.log[g].base
  }

  /** The base of the present state. */
  function Base(n: Native): DnsState { BaseAt(n, Generation(n)) }

  /** The resource shows something other than what the last outside writer left. */
  predicate Overlay(n: Native) {
    n.present && !n.disclaimed && Last(n).state != Base(n)
  }

  /** The snapshot really was the state at its generation. */
  predicate Faithful(n: Native, s: Snapshot) {
    s.generation < |n.log| && n.log[s.generation].state == s.state
  }

  /** A faithful snapshot of a generation whose base is `base`. */
  predicate Evidence(n: Native, s: Snapshot, base: DnsState) {
    Faithful(n, s) && BaseAt(n, s.generation) == base
  }

  predicate EvidenceIfAny(n: Native, s: Option<Snapshot>, base: DnsState) {
    s.Some? ==> Evidence(n, s.value, base)
  }

  /** The snapshot still names the present state: same generation, same value. */
  predicate Owns(n: Native, s: Snapshot) {
    n.present && s == Current(n)
  }

  predicate OwnsIfAny(n: Native, s: Option<Snapshot>) {
    s.Some? && Owns(n, s.value)
  }

  predicate Saves(journal: Files, state: DnsState) {
    exists lease :: lease in journal && journal[lease].before.state == state
  }

  /** The shape of one entry: an external write is its own base, an engine
      write inherits the base of the generation it replaced. */
  predicate StampOk(n: Native, g: nat)
    requires g < |n.log|
  {
    var s := n.log[g];
    && (s.writer.External? ==> s.base == s.state)
    && (s.writer.Engine? ==>
          && 0 < g
          && s.incarnation == n.log[g - 1].incarnation
          && (s.base == n.log[g - 1].base || (g - 1 in n.adopted && s.base == n.log[g - 1].state)))
    && (0 < g ==> n.log[g - 1].incarnation <= s.incarnation)
  }

  /** The engine write at `g` replaced a generation of its own, or a value of an
      outside writer, or an abandoned one, that the journal held as `before` at
      that moment. */
  predicate Saved(n: Native, g: nat)
    requires g < |n.log|
  {
    n.log[g].writer.Engine? && 0 < g ==>
      || (n.log[g - 1].writer.Engine? && g - 1 !in n.adopted)
      || Saves(n.log[g].writer.journal, n.log[g - 1].state)
  }

  predicate WfNative(n: Native) {
    && (forall g :: g in n.adopted ==> g < |n.log|)
    && (forall g: nat :: g < |n.log| ==> StampOk(n, g) && Saved(n, g))
    && forall r :: r in n.listed ==> Truthful(n, r)
  }

  /** What the record says about the past is true, whatever happened since it
      was published. */
  predicate Truthful(n: Native, r: Record) {
    && Evidence(n, r.before, r.before.state)
    && (r.applied.Some? ==> Faithful(n, r.applied.value))
  }

  // ----- steps of the outside world

  function ExternalWrite(n: Native, v: DnsState): Native {
    var incarnation := if n.present then Last(n).incarnation else Last(n).incarnation + 1;
    n.(present := true, log := n.log + [Stamp(v, incarnation, v, External)], foreign := n.foreign + 1)
  }

  function ExternalReplace(n: Native, v: DnsState): Native {
    n.(present := true, log := n.log + [Stamp(v, Last(n).incarnation + 1, v, External)], foreign := n.foreign + 1)
  }

  function ExternalRemove(n: Native): Native {
    n.(present := false, foreign := n.foreign + 1)
  }

  /** Every state that any number of external steps can lead to. */
  predicate Foreign(a: Native, b: Native) {
    b == a || ForeignStrict(a, b)
  }

  predicate ForeignStrict(a: Native, b: Native) {
    && a.foreign < b.foreign
    && a.log <= b.log
    && a.adopted == b.adopted
    && a.listed == b.listed
    && a.disclaimed == b.disclaimed
    && (WfNative(a) ==> WfNative(b))
    && (forall g: nat :: |a.log| <= g < |b.log| ==> b.log[g].writer.External?)
    && (b.present ==> |a.log| < |b.log|)
    && Last(a).incarnation <= Last(b).incarnation
    && (!a.present && b.present ==> Last(a).incarnation < Last(b).incarnation)
  }

  /** Nothing but the present generation was adopted since. */
  predicate AdoptedOnlyLast(a: Native, b: Native) {
    a.adopted <= b.adopted && forall g :: g in b.adopted && g < Generation(a) ==> g in a.adopted
  }

  /** Entries do not depend on what is written after them. */
  lemma EntriesStay(a: Native, b: Native, g: nat)
    requires WfNative(a) && g < |a.log| && a.log <= b.log && AdoptedOnlyLast(a, b)
    ensures StampOk(b, g) && Saved(b, g)
  {
    assert StampOk(a, g) && Saved(a, g);
    assert b.log[g] == a.log[g];
    assert 0 < g ==> b.log[g - 1] == a.log[g - 1];
  }

  lemma TruthStays(a: Native, b: Native, r: Record)
    requires Truthful(a, r) && a.log <= b.log && AdoptedOnlyLast(a, b)
    ensures Truthful(b, r)
  {
  }

  /** One more entry keeps the history well formed. */
  lemma Appended(a: Native, b: Native)
    requires WfNative(a) && a.log <= b.log && |b.log| <= |a.log| + 1
    requires AdoptedOnlyLast(a, b) && forall g :: g in b.adopted ==> g < |b.log|
    requires |b.log| == |a.log| + 1 ==> StampOk(b, |a.log|) && Saved(b, |a.log|)
    requires forall r :: r in b.listed && r !in a.listed ==> Truthful(b, r)
    ensures WfNative(b)
  {
    forall r | r in a.listed ensures Truthful(b, r) {
      TruthStays(a, b, r);
    }
    forall g: nat | g < |b.log|
      ensures StampOk(b, g) && Saved(b, g)
    {
      if g < |a.log| {
        EntriesStay(a, b, g);
      }
    }
  }

  /** The record has been read from the journal, to be recovered later. */
  function Noted(n: Native, r: Record): Native { n.(listed := n.listed + {r}) }

  lemma ForeignStep(n: Native, v: DnsState)
    ensures Foreign(n, ExternalWrite(n, v))
    ensures Foreign(n, ExternalReplace(n, v))
    ensures Foreign(n, ExternalRemove(n))
  {
    if WfNative(n) {
      Appended(n, ExternalWrite(n, v));
      Appended(n, ExternalReplace(n, v));
      Appended(n, ExternalRemove(n));
    }
  }

  /** Whatever another actor does, it is seen: no earlier snapshot names the state
      any more, an exchanged object is another incarnation, a removed one is absent,
      and what was written is what is shown, as its own base. */
  lemma ExternalStepsShow(n: Native, v: DnsState, s: Snapshot)
    requires s.generation < |n.log|
    ensures !Owns(ExternalWrite(n, v), s) && !Owns(ExternalReplace(n, v), s) && !Owns(ExternalRemove(n), s)
    ensures var w, x := ExternalWrite(n, v), ExternalReplace(n, v);
            && w.present && Last(w).state == v && Last(w).base == v && (n.present ==> Last(w).incarnation == Last(n).incarnation)
            && x.present && Last(x).state == v && Last(x).base == v && Last(n).incarnation < Last(x).incarnation
    ensures !ExternalRemove(n).present && Last(n).incarnation < Last(ExternalWrite(ExternalRemove(n), v)).incarnation
  {
  }

  lemma Stutter(a: Native)
    ensures Foreign(a, a) && Later(a, a)
  {
  }

  lemma ForeignIsCounted(a: Native, b: Native)
    requires Foreign(a, b)
    ensures a.foreign <= b.foreign
    ensures a.foreign == b.foreign ==> a == b
  {
  }

  lemma ForeignTransitive(a: Native, b: Native, c: Native)
    requires Foreign(a, b) && Foreign(b, c)
    ensures Foreign(a, c)
  {
  }

  lemma ExternalIsBase(n: Native)
    requires WfNative(n)
    ensures Last(n).writer.External? ==> Base(n) == Last(n).state
  {
    assert StampOk(n, Generation(n));
  }

  // ----- steps of the engine

  /** A write by the engine over the present generation. */
  function EngineWrite(n: Native, v: DnsState, journal: Files): Native {
    n.(log := n.log + [Stamp(v, Last(n).incarnation, Base(n), Engine(journal))])
  }

  /** One engine write over `a`, then any external steps. */
  predicate Wrote(a: Native, b: Native, journal: Files) {
    && a.present
    && |a.log| < |b.log|
    && Foreign(EngineWrite(a, b.log[|a.log|].state, journal), b)
  }

  /** `b` is a later state than `a`. Every fact about a generation of `a`
      still holds in `b`. */
  predicate Later(a: Native, b: Native) {
    && a.log <= b.log
    && a.adopted == b.adopted
    && a.disclaimed == b.disclaimed
    && a.foreign <= b.foreign
    && (|a.log| == |b.log| && b.present ==> a.present)
    && Last(a).incarnation <= Last(b).incarnation
    && (a.foreign == b.foreign ==> b.present == a.present && Last(b).incarnation == Last(a).incarnation)
  }

  lemma LaterTransitive(a: Native, b: Native, c: Native)
    requires Later(a, b) && Later(b, c)
    ensures Later(a, c)
  {
  }

  lemma WroteIsLater(a: Native, b: Native, journal: Files)
    requires WfNative(a) && Wrote(a, b, journal)
    requires Last(a).writer.External? || Generation(a) in a.adopted ==> Saves(journal, Last(a).state)
    ensures Later(a, b) && WfNative(b)
  {
    var m := EngineWrite(a, b.log[|a.log|].state, journal);
    Appended(a, m);
  }
}
