/** The boundary to one OS resource and its journal file. Every operation may
    be preceded by any number of external steps, may fail, and may be where
    the process dies, as far as the environment allows it. */
module Backend {
  import opened Dns
  import opened World
  import opened Durable

  /** What the surroundings may do during a call. A silent backend may withhold
      the identity of a write; one that refuses fails every write, and writes
      nothing. */
  datatype Env = Env(externals: bool, failures: bool, crashes: bool, silent: bool, refuses: bool)

  predicate Calm(env: Env) { !env.externals && !env.failures && !env.silent && !env.refuses }

  /** Nothing happens but that every write of the backend fails. */
  predicate Refusing(env: Env) { !env.externals && !env.failures && !env.crashes && !env.silent && env.refuses }

  /** Nothing failed, and nobody else wrote the resource. */
  predicate Quiet(env: Env, a: Native, b: Native) { !env.failures && !env.silent && !env.refuses && a.foreign == b.foreign }

  /** Whatever failed, nobody else wrote the resource, and every write of ours
      was named. */
  predicate Undisturbed(env: Env, a: Native, b: Native) { !env.silent && a.foreign == b.foreign }

  datatype Error =
    | ExternalModification
    | ResourceGone
    | ResourceIdentity
    | VerificationFailed
    | IndeterminateMutation
    | LeaseEnding
    | LeaseNotActive
    | NeedsRebind
    | Conflict
    | JournalFailed
    | Platform
    | TransactionFailed(primary: Error, cleanup: seq<Error>)

  /** The result of an operation; `Died` means that the process is gone. */
  datatype Outcome<+T> = Done(value: T) | Fail(error: Error) | Died
  {
    predicate IsFailure() { !Done? }

    function PropagateFailure<U>(): Outcome<U>
      requires IsFailure()
    {
      match this
      case Fail(error) => Fail(error)
      case Died => Died
    }

    function Extract(): T
      requires Done?
    {
      value
    }
  }

  datatype ResourceStatus = Same | Gone | Replaced | Ambiguous

  function StatusOf(n: Native, identity: nat): ResourceStatus {
    if !n.present then Gone
    else if identity == Last(n).incarnation then Same
    else ResourceStatus.Replaced
  }

  /** What a mutation did. `Rejected`: no write. `Indeterminate`: the write may
      have happened, or the resource is absent. `produced`, when given, names the write of this call. */
  datatype Attempt =
    | Performed(produced: Option<Snapshot>)
    | Rejected(error: Error)
    | Indeterminate(error: Error, produced: Option<Snapshot>)
    | Killed

  /** The identity of the engine write that led from `a` to `b`. */
  function Issued(a: Native, b: Native): Snapshot
    requires |a.log| < |b.log|
  {
    Snapshot(b.log[|a.log|].state, |a.log|)
  }

  /** One engine write replaced exactly `expected`. Only a failing backend
      leaves something other than `intended`. */
  predicate Overwrote(a: Native, b: Native, files: Files, expected: Snapshot, intended: DnsState, env: Env) {
    && Owns(a, expected)
    && Wrote(a, b, files)
    && (env.failures || b.log[|a.log|].state == intended)
  }

  predicate AttemptOk(a: Native, b: Native, files: Files, expected: Snapshot, intended: DnsState, env: Env, out: Attempt) {
    match out
    case Rejected(_) =>
      && Foreign(a, b)
      && (!env.failures ==> !Owns(b, expected))
    case Performed(p) =>
      && Overwrote(a, b, files, expected, intended, env)
      && (p.Some? ==> p.value == Issued(a, b))
      && (p.None? ==> env.silent)
    case Indeterminate(error, p) =>
      && (env.failures || (Foreign(a, b) && (env.refuses || !b.present)))
      && error != ExternalModification
      && ((p.None? && Foreign(a, b))
          || (Overwrote(a, b, files, expected, intended, env) && (if p.Some? then p.value == Issued(a, b) else env.silent)))
    case Killed =>
      && env.crashes
      && (Foreign(a, b) || Overwrote(a, b, files, expected, intended, env))
  }

  /** A snapshot that names the present state was not overtaken. */
  lemma UntouchedSince(a: Native, b: Native, s: Snapshot)
    requires Foreign(a, b) && Faithful(a, s) && Owns(b, s)
    ensures b == a
  {
  }

  /** The ways in which an attempt may end that wrote nothing. */
  lemma Unwritten(a: Native, b: Native, files: Files, expected: Snapshot, intended: DnsState, env: Env)
    requires Foreign(a, b)
    ensures env.failures || !Owns(b, expected) ==> AttemptOk(a, b, files, expected, intended, env, Rejected(ExternalModification))
    ensures env.failures || env.refuses || !b.present ==> AttemptOk(a, b, files, expected, intended, env, Indeterminate(Platform, None))
    ensures env.crashes ==> AttemptOk(a, b, files, expected, intended, env, Killed)
    ensures a.foreign == b.foreign ==> a == b
  {
  }

  /** The ways in which an attempt may end that wrote `v`. */
  lemma Written(a: Native, v: DnsState, m: Native, b: Native, files: Files, expected: Snapshot, intended: DnsState, env: Env)
    requires Owns(a, expected) && m == EngineWrite(a, v, files) && Foreign(m, b)
    requires env.failures || v == intended
    ensures forall named :: named == Some(Current(m)) || (named.None? && env.silent) ==>
              && AttemptOk(a, b, files, expected, intended, env, Performed(named))
              && (env.failures ==> AttemptOk(a, b, files, expected, intended, env, Indeterminate(Platform, named)))
    ensures env.crashes ==> AttemptOk(a, b, files, expected, intended, env, Killed)
  {
    assert b.log[|a.log|] == Last(m);
    assert EngineWrite(a, b.log[|a.log|].state, files) == m;
  }

  /** One resource: native state, journal files and the inter-process lock. */
  class Resource {
    var native: Native
    var files: Files
    var locked: bool

    constructor (state: DnsState)
      ensures DurableOk(native, files) && !locked && files == map[]
      ensures Current(native) == Snapshot(state, 0) && native.present
    {
      native := Cell(true, [Stamp(state, 0, state, External)], {}, false, 0, {});
      files := map[];
      locked := false;
    }

    /** Another actor writes the resource, creating it when it is absent. */
    method ExternalChange(v: DnsState)
      modifies this`native
      ensures native == ExternalWrite(old(native), v)
    {
      native := ExternalWrite(native, v);
    }

    /** The native object is exchanged for a new one. */
    method ExternalExchange(v: DnsState)
      modifies this`native
      ensures native == ExternalReplace(old(native), v)
    {
      native := ExternalReplace(native, v);
    }

    /** The native object disappears. */
    method ExternalRemoval()
      modifies this`native
      ensures native == ExternalRemove(old(native))
    {
      native := ExternalRemove(native);
    }

    /** Any number of external steps, if the environment has other writers. */
    method Interfere(env: Env)
      modifies this`native
      ensures Foreign(old(native), native)
      ensures !env.externals ==> native == old(native)
    {
      if env.externals {
        var steps: nat := *;
        while steps > 0
          invariant Foreign(old(native), native)
        {
          ghost var before := native;
          var v: DnsState := *;
          if {
            case true => ExternalChange(v);
            case true => ExternalExchange(v);
            case true => ExternalRemoval();
          }
          ForeignStep(before, v);
          ForeignTransitive(old(native), before, native);
          steps := steps - 1;
        }
      }
    }

    /** Whether the native object is still the recorded incarnation. */
    method Status(env: Env, identity: nat) returns (r: Outcome<ResourceStatus>)
      modifies this`native
      ensures Foreign(old(native), native) && (!env.externals ==> native == old(native))
      ensures r.Done? ==> r.value == StatusOf(native, identity) || (env.failures && r.value == Ambiguous)
      ensures r.Fail? ==> env.failures && r.error == Platform
      ensures r.Died? ==> env.crashes
    {
      Interfere(env);
      var fails: bool, dies: bool, hidden: bool := *, *, *;
      if env.crashes && dies {
        return Died;
      }
      if env.failures && fails {
        return Fail(Platform);
      }
      if env.failures && hidden {
        return Done(Ambiguous);
      }
      return Done(StatusOf(native, identity));
    }

    /** Reads the present state. A read may fail but never lies. */
    method Readback(env: Env) returns (r: Outcome<Snapshot>)
      modifies this`native
      ensures Foreign(old(native), native) && (!env.externals ==> native == old(native))
      ensures r.Done? ==> native.present && r.value == Current(native)
      ensures r == Fail(ResourceGone) ==> !native.present
      ensures r.Fail? ==> r.error == ResourceGone || (env.failures && r.error == Platform)
      ensures r.Died? ==> env.crashes
    {
      Interfere(env);
      var fails: bool, dies: bool := *, *;
      if env.crashes && dies {
        return Died;
      }
      if env.failures && fails {
        return Fail(Platform);
      }
      if !native.present {
        return Fail(ResourceGone);
      }
      return Done(Current(native));
    }

    /** Reads incarnation and state from the same native object, for a new
        lease. An abandoned state counts as the outside's from here on. */
    method Observe(env: Env) returns (r: Outcome<(nat, Snapshot)>)
      requires WfNative(native)
      modifies this`native
      ensures exists m: Native ::
                && Foreign(old(native), m)
                && (native == m || (m.disclaimed && native == m.(disclaimed := false, adopted := m.adopted + {Generation(m)})))
      ensures r.Done? ==> native.present && !native.disclaimed && r.value == (Last(native).incarnation, Current(native))
      ensures r.Fail? ==> env.failures || !native.present
      ensures r.Died? ==> env.crashes
      ensures !env.externals ==> native.foreign == old(native).foreign && native.log == old(native).log && native.present == old(native).present
    {
      Interfere(env);
      var fails: bool, dies: bool := *, *;
      if env.crashes && dies {
        return Died;
      }
      if env.failures && fails {
        return Fail(Platform);
      }
      if !native.present {
        return Fail(ResourceGone);
      }
      if native.disclaimed {
        native := native.(disclaimed := false, adopted := native.adopted + {Generation(native)});
      }
      return Done((Last(native).incarnation, Current(native)));
    }

    /** Compare and mutate: writes only while the present generation and value
        are still `expected`. Comparison and write are one atomic step. */
    method GuardedWrite(env: Env, expected: Snapshot, intended: DnsState) returns (r: Attempt)
      requires Faithful(native, expected)
      modifies this`native
      ensures AttemptOk(old(native), native, files, expected, intended, env, r)
      ensures env.refuses ==> Foreign(old(native), native) && r in {Killed, Indeterminate(Platform, None)}
      ensures !env.externals ==> native.foreign == old(native).foreign
    {
      hide Foreign, AttemptOk;
      ghost var start := native;
      Interfere(env);
      Unwritten(start, native, files, expected, intended, env);
      var fails: bool, dies: bool, late: bool, silent: bool, written: DnsState := *, *, *, *, *;
      if env.crashes && dies && (env.refuses || !late) {
        return Killed;
      }
      if env.refuses || (env.failures && fails && !late) {
        return Indeterminate(Platform, None);
      }
      if !native.present {
        return Indeterminate(Platform, None);
      }
      if Current(native) != expected {
        return Rejected(ExternalModification);
      }
      UntouchedSince(start, native, expected);
      var given := if env.failures then written else intended;
      native := EngineWrite(native, given, files);
      var produced := Current(native);
      ghost var m := native;
      Interfere(env);
      Written(start, given, m, native, files, expected, intended, env);
      if env.crashes && dies {
        return Killed;
      }
      var named := if env.silent && silent then None else Some(produced);
      if env.failures && fails {
        return Indeterminate(Platform, named);
      }
      return Performed(named);
    }

    /** Publishes `record` atomically. A failed publication may be visible. */
    method JournalWrite(env: Env, record: Record) returns (r: Outcome<()>)
      modifies this`files
      ensures files == old(files) || files == old(files)[record.lease := record]
      ensures r.Done? ==> files == old(files)[record.lease := record]
      ensures r.Fail? ==> env.failures && r.error == JournalFailed
      ensures r.Died? ==> env.crashes
    {
      var fails: bool, dies: bool, published: bool := *, *, *;
      if env.crashes && dies {
        if published {
          files := files[record.lease := record];
        }
        return Died;
      }
      if env.failures && fails {
        if published {
          files := files[record.lease := record];
        }
        return Fail(JournalFailed);
      }
      files := files[record.lease := record];
      return Done(());
    }

    /** Removes the record of `lease`; absence is success. A failed removal may
        have happened. */
    method JournalRemove(env: Env, lease: nat) returns (r: Outcome<()>)
      modifies this`files
      ensures files == old(files) || files == old(files) - {lease}
      ensures r.Done? ==> files == old(files) - {lease}
      ensures r.Fail? ==> env.failures && r.error == JournalFailed
      ensures r.Died? ==> env.crashes
    {
      var fails: bool, dies: bool, removed: bool := *, *, *;
      if env.crashes && dies {
        if removed {
          files := files - {lease};
        }
        return Died;
      }
      if env.failures && fails {
        if removed {
          files := files - {lease};
        }
        return Fail(JournalFailed);
      }
      files := files - {lease};
      return Done(());
    }
  }
}
