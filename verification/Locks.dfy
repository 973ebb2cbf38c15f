/** Resource locks between and inside processes: every process keeps a registry
    of the resources it has locked, and one lock file per resource excludes the
    other processes. Any number of threads acquire and release concurrently. */
module Locks {
  /** What a thread is doing. `todo` is what is left of a sorted list. */
  datatype Stage =
    | Resting
    | Looking(todo: seq<nat>)   // about to consult the registry for todo[0]
    | Trying(todo: seq<nat>)    // not registered here: about to try the lock file
    | Marking(todo: seq<nat>)   // has the lock file: about to register
    | Failing                   // about to drop the next lock of the failed call
    | Closing(closing: nat, failing: bool) // unregistered: about to release the lock file

  /** `kept` are the locks of earlier calls, `want` the list of the present call
      and `taken` what it has acquired. */
  datatype Thread = Thread(process: nat, kept: set<nat>, want: seq<nat>, taken: seq<nat>, stage: Stage)

  datatype State = State(threads: map<nat, Thread>, files: map<nat, nat>, registry: set<(nat, nat)>)

  datatype Act =
    | Begin(list: seq<nat>)
    | Look
    | Attempt
    | GiveUp
    | Mark
    | Unregister
    | Close
    | Release(resource: nat)

  // ----- sorted lists

  predicate Increasing(s: seq<nat>) {
    forall i, j :: 0 <= i < j < |s| ==> s[i] < s[j]
  }

  function Inserted(x: nat, s: seq<nat>): (r: seq<nat>)
    requires Increasing(s)
    ensures Increasing(r)
    ensures forall y :: y in r <==> y == x || y in s
  {
    assert s != [] ==> s == [s[0]] + s[1..];
    if s == [] then [x]
    else if x < s[0] then [x] + s
    else if x == s[0] then s
    else
      var rest := Inserted(x, s[1..]);
      IncreasingWith(s[0], s[1..], rest, x);
      [s[0]] + rest
  }

  lemma IncreasingWith(first: nat, tail: seq<nat>, rest: seq<nat>, x: nat)
    requires Increasing([first] + tail) && Increasing(rest) && first < x
    requires forall y :: y in rest <==> y == x || y in tail
    ensures Increasing([first] + rest)
  {
    forall y | y in tail ensures first < y {
      var i :| 0 <= i < |tail| && tail[i] == y;
      assert ([first] + tail)[0] == first && ([first] + tail)[i + 1] == y;
    }
    assert forall i :: 0 <= i < |rest| ==> rest[i] in rest;
  }

  /** The list in order and without duplicates. */
  function SortDedup(s: seq<nat>): (r: seq<nat>)
    ensures Increasing(r)
    ensures forall y :: y in r <==> y in s
  {
    if s == [] then [] else Inserted(s[0], SortDedup(s[1..]))
  }

  function Elements(s: seq<nat>): set<nat> { set x | x in s }

  // ----- the steps

  predicate Enabled(s: State, t: nat, act: Act) {
    t in s.threads &&
    var g := s.threads[t];
    match act
    case Begin(_) => g.stage.Resting?
    case Look => g.stage.Looking?
    case Attempt => g.stage.Trying? && g.stage.todo != []
    case GiveUp => (g.stage.Looking? || g.stage.Trying?) && g.stage.todo != []
    case Mark => g.stage.Marking? && g.stage.todo != []
    case Unregister => g.stage.Failing?
    case Close => g.stage.Closing?
    case Release(x) => g.stage.Resting? && x in g.kept
  }

  function Step(s: State, t: nat, act: Act): State
    requires Enabled(s, t, act)
  {
    var g := s.threads[t];
    match act
    case Begin(list) =>
      s.(threads := s.threads[t := g.(want := list, taken := [], stage := Looking(SortDedup(list)))])
    case Look =>
      var todo := g.stage.todo;
      if todo == [] then
        s.(threads := s.threads[t := g.(kept := g.kept + Elements(g.taken), taken := [], stage := Resting)])
      else if (g.process, todo[0]) in s.registry then
        s.(threads := s.threads[t := g.(stage := Failing)])
      else
        s.(threads := s.threads[t := g.(stage := Trying(todo))])
    case Attempt =>
      var todo := g.stage.todo;
      if todo[0] in s.files then
        s.(threads := s.threads[t := g.(stage := Looking(todo))])
      else
        s.(threads := s.threads[t := g.(stage := Marking(todo))], files := s.files[todo[0] := t])
    case GiveUp =>
      s.(threads := s.threads[t := g.(stage := Failing)])
    case Mark =>
      var todo := g.stage.todo;
      s.(threads := s.threads[t := g.(taken := g.taken + [todo[0]], stage := Looking(todo[1..]))],
         registry := s.registry + {(g.process, todo[0])})
    case Unregister =>
      if g.taken == [] then
        s.(threads := s.threads[t := g.(stage := Resting)])
      else
        s.(threads := s.threads[t := g.(taken := g.taken[1..], stage := Closing(g.taken[0], true))],
           registry := s.registry - {(g.process, g.taken[0])})
    case Close =>
      s.(threads := s.threads[t := g.(stage := if g.stage.failing then Failing else Resting)],
         files := s.files - {g.stage.closing})
    case Release(x) =>
      s.(threads := s.threads[t := g.(kept := g.kept - {x}, stage := Closing(x, false))],
         registry := s.registry - {(g.process, x)})
  }

  /** The process dies: its threads and its registry vanish, and the operating
      system releases its lock files. */
  function Die(s: State, process: nat): State {
    State(
      map t | t in s.threads && s.threads[t].process != process :: s.threads[t],
      map x | x in s.files && s.files[x] in s.threads && s.threads[s.files[x]].process != process :: s.files[x],
      set e | e in s.registry && e.0 != process)
  }

  /** A new thread starts, with no locks. */
  function Spawn(s: State, t: nat, process: nat): State {
    if t in s.threads then s else s.(threads := s.threads[t := Thread(process, {}, [], [], Resting)])
  }

  // ----- the invariant

  predicate InCall(g: Thread) { g.stage.Looking? || g.stage.Trying? || g.stage.Marking? }

  predicate ThreadOk(g: Thread) {
    && Increasing(g.taken)
    && (forall x :: x in g.taken ==> x !in g.kept)
    && (InCall(g) ==> SortDedup(g.want) == g.taken + g.stage.todo)
    && (g.stage.Trying? || g.stage.Marking? ==> g.stage.todo != [])
    && (g.stage.Resting? ==> g.taken == [])
    && (g.stage.Closing? ==> g.stage.closing !in g.kept && g.stage.closing !in g.taken && (!g.stage.failing ==> g.taken == []))
    && (g.stage.Marking? ==> g.stage.todo[0] !in g.kept)
  }

  /** The locks that a thread has registered. */
  function Registered(g: Thread): set<nat> { g.kept + Elements(g.taken) }

  /** The lock files that a thread holds. */
  function Owns(g: Thread): set<nat> {
    Registered(g) +
    match g.stage
    case Marking(todo) => if todo == [] then {} else {todo[0]}
    case Closing(x, _) => {x}
    case _ => {}
  }

  /** The lock file of `x` belongs to the one thread that owns it, and only the
      process of that thread may have it registered. */
  ghost predicate At(s: State, x: nat) {
    && (x in s.files ==> s.files[x] in s.threads && x in Owns(s.threads[s.files[x]]))
    && (forall t :: t in s.threads && x in Owns(s.threads[t]) ==> x in s.files && s.files[x] == t)
    && (forall p :: (p, x) in s.registry ==> x in s.files && s.threads[s.files[x]].process == p && x in Registered(s.threads[s.files[x]]))
    && (x in s.files && x in Registered(s.threads[s.files[x]]) ==> (s.threads[s.files[x]].process, x) in s.registry)
  }

  ghost predicate Inv(s: State) {
    && (forall t :: t in s.threads ==> ThreadOk(s.threads[t]))
    && (forall x :: At(s, x))
  }

  lemma InitOk()
    ensures Inv(State(map[], map[], {}))
  {
  }

  lemma SpawnOk(s: State, t: nat, process: nat)
    requires Inv(s)
    ensures Inv(Spawn(s, t, process))
  {
    var r := Spawn(s, t, process);
    forall x ensures At(r, x) {
      assert At(s, x);
    }
  }

  lemma DieOk(s: State, process: nat)
    requires Inv(s)
    ensures Inv(Die(s, process))
  {
    var r := Die(s, process);
    forall x ensures At(r, x) {
      assert At(s, x);
    }
  }

  /** A step of `t` that neither locks, unlocks nor registers `x`. */
  lemma Elsewhere(s: State, r: State, t: nat, x: nat)
    requires At(s, x) && t in s.threads && t in r.threads && r.threads == s.threads[t := r.threads[t]]
    requires r.threads[t].process == s.threads[t].process
    requires x in Owns(r.threads[t]) <==> x in Owns(s.threads[t])
    requires x in Registered(r.threads[t]) <==> x in Registered(s.threads[t])
    requires x in r.files <==> x in s.files
    requires x in r.files ==> r.files[x] == s.files[x]
    requires forall p :: (p, x) in r.registry <==> (p, x) in s.registry
    ensures At(r, x)
  {
  }

  lemma TakenGrows(g: Thread, todo: seq<nat>)
    requires ThreadOk(g) && g.stage == Marking(todo)
    ensures var h := g.(taken := g.taken + [todo[0]], stage := Looking(todo[1..]));
            ThreadOk(h) && Owns(h) == Owns(g) && Registered(h) == Registered(g) + {todo[0]}
  {
    var h := g.(taken := g.taken + [todo[0]], stage := Looking(todo[1..]));
    assert h.taken + todo[1..] == g.taken + todo;
    assert forall i :: 0 <= i < |h.taken| ==> h.taken[i] == (g.taken + todo)[i];
    assert Elements(h.taken) == Elements(g.taken) + {todo[0]};
  }

  lemma TakenShrinks(g: Thread)
    requires ThreadOk(g) && g.stage.Failing? && g.taken != []
    ensures var h := g.(taken := g.taken[1..], stage := Closing(g.taken[0], true));
            ThreadOk(h) && Owns(h) == Owns(g) && Registered(h) == Registered(g) - {g.taken[0]}
  {
    assert g.taken == [g.taken[0]] + g.taken[1..];
    assert forall y :: y in g.taken[1..] ==> g.taken[0] < y;
  }

  lemma FinishedKeeps(g: Thread)
    requires ThreadOk(g) && g.stage == Looking([])
    ensures var h := g.(kept := g.kept + Elements(g.taken), taken := [], stage := Resting);
            ThreadOk(h) && Owns(h) == Owns(g) && Registered(h) == Registered(g)
  {
  }

  /** Every step of every thread keeps the invariant. */
  lemma StepOk(s: State, t: nat, act: Act)
    requires Inv(s) && Enabled(s, t, act)
    ensures Inv(Step(s, t, act))
  {
    var r := Step(s, t, act);
    StepKeepsThread(s.threads[t], s, t, act);
    forall x ensures At(r, x) {
      assert At(s, x);
      StepAt(s, t, act, x);
    }
  }

  lemma StepKeepsThread(g: Thread, s: State, t: nat, act: Act)
    requires Enabled(s, t, act) && g == s.threads[t] && ThreadOk(g)
    requires act.Attempt? ==> At(s, g.stage.todo[0])
    ensures ThreadOk(Step(s, t, act).threads[t])
  {
    match act
    case Begin(list) => assert [] + SortDedup(list) == SortDedup(list);
    case Mark => TakenGrows(g, g.stage.todo);
    case Unregister => if g.taken != [] { TakenShrinks(g); }
    case _ =>
  }

  lemma StepAt(s: State, t: nat, act: Act, x: nat)
    requires Enabled(s, t, act) && ThreadOk(s.threads[t]) && At(s, x)
    ensures At(Step(s, t, act), x)
  {
    hide At;
    var g, r := s.threads[t], Step(s, t, act);
    match act
    case Begin(list) => Elsewhere(s, r, t, x);
    case Look =>
      if g.stage.todo == [] {
        FinishedKeeps(g);
      }
      Elsewhere(s, r, t, x);
    case GiveUp => Elsewhere(s, r, t, x);
    case Attempt => AttemptAt(s, t, x);
    case Mark => MarkAt(s, t, x);
    case Unregister => UnregisterAt(s, t, x);
    case Close => CloseAt(s, t, x);
    case Release(y) => ReleaseAt(s, t, y, x);
  }

  lemma AttemptAt(s: State, t: nat, x: nat)
    requires Enabled(s, t, Attempt) && ThreadOk(s.threads[t]) && At(s, x)
    ensures At(Step(s, t, Attempt), x)
  {
    var g, r := s.threads[t], Step(s, t, Attempt);
    if x != g.stage.todo[0] || x in s.files {
      Elsewhere(s, r, t, x);
    }
  }

  lemma MarkAt(s: State, t: nat, x: nat)
    requires Enabled(s, t, Mark) && ThreadOk(s.threads[t]) && At(s, x)
    ensures At(Step(s, t, Mark), x)
  {
    var g, r := s.threads[t], Step(s, t, Mark);
    TakenGrows(g, g.stage.todo);
    if x != g.stage.todo[0] {
      Elsewhere(s, r, t, x);
    } else {
      assert x in Owns(g);
    }
  }

  lemma UnregisterAt(s: State, t: nat, x: nat)
    requires Enabled(s, t, Unregister) && ThreadOk(s.threads[t]) && At(s, x)
    ensures At(Step(s, t, Unregister), x)
  {
    var g, r := s.threads[t], Step(s, t, Unregister);
    if g.taken != [] {
      TakenShrinks(g);
    }
    if g.taken == [] || x != g.taken[0] {
      Elsewhere(s, r, t, x);
    } else {
      assert x in Registered(g);
    }
  }

  lemma CloseAt(s: State, t: nat, x: nat)
    requires Enabled(s, t, Close) && ThreadOk(s.threads[t]) && At(s, x)
    ensures At(Step(s, t, Close), x)
  {
    var g, r := s.threads[t], Step(s, t, Close);
    if x != g.stage.closing {
      Elsewhere(s, r, t, x);
    } else {
      assert x in Owns(g) && x !in Registered(g);
    }
  }

  lemma ReleaseAt(s: State, t: nat, y: nat, x: nat)
    requires Enabled(s, t, Release(y)) && ThreadOk(s.threads[t]) && At(s, x)
    ensures At(Step(s, t, Release(y)), x)
  {
    var g, r := s.threads[t], Step(s, t, Release(y));
    if x != y {
      Elsewhere(s, r, t, x);
    } else {
      assert x in Registered(g);
    }
  }

  // ----- runs

  datatype Event =
    | Spawned(thread: nat, process: nat)
    | Died(process: nat)
    | Stepped(thread: nat, act: Act)

  predicate Possible(s: State, e: Event) { e.Stepped? ==> Enabled(s, e.thread, e.act) }

  function After(s: State, e: Event): State
    requires Possible(s, e)
  {
    match e
    case Spawned(t, p) => Spawn(s, t, p)
    case Died(p) => Die(s, p)
    case Stepped(t, act) => Step(s, t, act)
  }

  const Nobody := State(map[], map[], {})

  predicate CanRun(s: State, events: seq<Event>)
    decreases |events|
  {
    events != [] ==> Possible(s, events[0]) && CanRun(After(s, events[0]), events[1..])
  }

  function Run(s: State, events: seq<Event>): State
    requires CanRun(s, events)
    decreases |events|
  {
    if events == [] then s else Run(After(s, events[0]), events[1..])
  }

  lemma EventOk(s: State, e: Event)
    requires Inv(s) && Possible(s, e)
    ensures Inv(After(s, e))
  {
    match e
    case Spawned(t, p) => SpawnOk(s, t, p);
    case Died(p) => DieOk(s, p);
    case Stepped(t, act) => StepOk(s, t, act);
  }

  lemma {:induction false} RunOk(s: State, events: seq<Event>)
    requires Inv(s) && CanRun(s, events)
    ensures Inv(Run(s, events))
    decreases |events|
  {
    if events != [] {
      EventOk(s, events[0]);
      RunOk(After(s, events[0]), events[1..]);
    }
  }

  /** In every run, at most one thread owns a resource, and a registered resource
      is owned by a thread of the process that registered it. */
  lemma OneHolder(events: seq<Event>, t: nat, u: nat, x: nat)
    requires CanRun(Nobody, events)
    requires var s := Run(Nobody, events);
             t in s.threads && u in s.threads && x in Owns(s.threads[t]) && x in Owns(s.threads[u])
    ensures t == u
    ensures var s := Run(Nobody, events); forall p :: (p, x) in s.registry ==> s.threads[t].process == p
  {
    InitOk();
    RunOk(Nobody, events);
    assert At(Run(Nobody, events), x);
  }

  // ----- a call takes all of its locks or none

  /** The call of `t` that began with the locks `kept` and the list `list` is
      still going on in every state of the run. */
  predicate InCallThroughout(s: State, t: nat, events: seq<Event>)
    requires CanRun(s, events)
    decreases |events|
  {
    events != [] ==>
      && t in s.threads
      && (InCall(s.threads[t]) || s.threads[t].stage.Failing? || (s.threads[t].stage.Closing? && s.threads[t].stage.failing))
      && InCallThroughout(After(s, events[0]), t, events[1..])
  }

  /** Whatever the other threads do, a call that returns with success holds its
      whole list beside what the thread held before, and a call that fails holds
      nothing but that. Only the last look at an exhausted list is a success. */
  lemma {:induction false} AllOrNone(s: State, t: nat, list: seq<nat>, kept: set<nat>, events: seq<Event>)
    requires Inv(s) && CanRun(s, events) && InCallThroughout(s, t, events)
    requires t in s.threads && s.threads[t].kept == kept && s.threads[t].want == list && !s.threads[t].stage.Resting?
    requires events != [] && t in Run(s, events).threads && Run(s, events).threads[t].stage.Resting?
    ensures Owns(Run(s, events).threads[t]) == if events[|events| - 1] == Stepped(t, Look) then kept + Elements(list) else kept
    decreases |events|
  {
    var e := events[0];
    var r := After(s, e);
    EventOk(s, e);
    if t in r.threads && r.threads[t].stage.Resting? {
      CallReturns(s, t, e);
    } else if t in r.threads {
      CallGoesOn(s, t, e);
      AllOrNone(r, t, list, kept, events[1..]);
    }
  }

  lemma CallReturns(s: State, t: nat, e: Event)
    requires Possible(s, e) && t in s.threads && t in After(s, e).threads && ThreadOk(s.threads[t])
    requires var g := s.threads[t]; InCall(g) || g.stage.Failing? || (g.stage.Closing? && g.stage.failing)
    requires After(s, e).threads[t].stage.Resting?
    ensures var g := s.threads[t];
            Owns(After(s, e).threads[t]) == if e == Stepped(t, Look) then g.kept + Elements(g.want) else g.kept
  {
    hide SortDedup, Increasing;
    var g := s.threads[t];
    if e == Stepped(t, Look) {
      CallSucceeds(g);
    }
  }

  lemma CallSucceeds(g: Thread)
    requires ThreadOk(g) && g.stage == Looking([])
    ensures Elements(g.taken) == Elements(g.want)
  {
    assert g.taken + [] == g.taken;
    assert g.taken == SortDedup(g.want);
  }

  lemma CallGoesOn(s: State, t: nat, e: Event)
    requires Possible(s, e) && t in s.threads && t in After(s, e).threads
    requires var g := s.threads[t]; InCall(g) || g.stage.Failing? || (g.stage.Closing? && g.stage.failing)
    requires !After(s, e).threads[t].stage.Resting?
    ensures After(s, e).threads[t].kept == s.threads[t].kept && After(s, e).threads[t].want == s.threads[t].want
  {
  }

  // ----- what is dropped is free, and what is free can be taken

  /** Nobody has the resource: no lock file, no owner, no registration. */
  ghost predicate Free(s: State, x: nat) {
    && x !in s.files
    && (forall t :: t in s.threads ==> x !in Owns(s.threads[t]))
    && (forall p :: (p, x) !in s.registry)
  }

  lemma UnlockedIsFree(s: State, x: nat)
    requires Inv(s) && x !in s.files
    ensures Free(s, x)
  {
    assert At(s, x);
  }

  /** Nothing in the run is a step of `t` or the death of its process. */
  predicate Without(events: seq<Event>, t: nat, process: nat) {
    forall i :: 0 <= i < |events| ==>
      && !(events[i].Stepped? && events[i].thread == t)
      && !(events[i].Died? && events[i].process == process)
  }

  lemma {:induction false} ThreadRests(s: State, t: nat, events: seq<Event>)
    requires Inv(s) && CanRun(s, events) && t in s.threads && Without(events, t, s.threads[t].process)
    ensures var r := Run(s, events); Inv(r) && t in r.threads && r.threads[t] == s.threads[t]
    decreases |events|
  {
    if events != [] {
      EventOk(s, events[0]);
      assert forall i :: 0 <= i < |events[1..]| ==> events[1..][i] == events[i + 1];
      var r := After(s, events[0]);
      assert t in r.threads && r.threads[t] == s.threads[t];
      ThreadRests(r, t, events[1..]);
    }
  }

  /** A thread that drops a lock can close its file whatever the others did in
      the meantime, and then nobody has the resource and the thread has exactly its
      other locks. */
  lemma ReleaseFrees(events: seq<Event>, t: nat, x: nat, between: seq<Event>)
    requires CanRun(Nobody, events) && Enabled(Run(Nobody, events), t, Release(x))
    requires var s := Run(Nobody, events);
             CanRun(Step(s, t, Release(x)), between) && Without(between, t, s.threads[t].process)
    ensures var s := Run(Nobody, events);
            var m := Run(Step(s, t, Release(x)), between);
            && Enabled(m, t, Close)
            && Free(Step(m, t, Close), x)
            && Step(m, t, Close).threads[t].stage.Resting?
            && Owns(Step(m, t, Close).threads[t]) == Owns(s.threads[t]) - {x}
  {
    InitOk();
    RunOk(Nobody, events);
    var s := Run(Nobody, events);
    StepOk(s, t, Release(x));
    ThreadRests(Step(s, t, Release(x)), t, between);
    var m := Run(Step(s, t, Release(x)), between);
    StepOk(m, t, Close);
    UnlockedIsFree(Step(m, t, Close), x);
  }

  /** The death of a process frees what its threads had, and nothing else. */
  lemma DeathFrees(events: seq<Event>, process: nat)
    requires CanRun(Nobody, events)
    ensures var s, r := Run(Nobody, events), Die(Run(Nobody, events), process);
            && (forall t, x :: t in s.threads && s.threads[t].process == process && x in Owns(s.threads[t]) ==> Free(r, x))
            && (forall t :: t in s.threads && s.threads[t].process != process ==> t in r.threads && r.threads[t] == s.threads[t])
            && (forall t, x :: t in r.threads && x in Owns(r.threads[t]) ==> x in r.files && r.files[x] == t)
  {
    InitOk();
    RunOk(Nobody, events);
    var s, r := Run(Nobody, events), Die(Run(Nobody, events), process);
    DieOk(s, process);
    forall t, x | t in s.threads && s.threads[t].process == process && x in Owns(s.threads[t])
      ensures Free(r, x)
    {
      assert At(s, x);
      UnlockedIsFree(r, x);
    }
    forall t, x | t in r.threads && x in Owns(r.threads[t])
      ensures x in r.files && r.files[x] == t
    {
      assert At(r, x);
    }
  }

  function StepsOf(t: nat, acts: seq<Act>): seq<Event> {
    seq(|acts|, i requires 0 <= i < |acts| => Stepped(t, acts[i]))
  }

  /** What a thread does to take the rest of its list, when it is not disturbed. */
  function TakeActs(todo: seq<nat>): seq<Act> {
    if todo == [] then [Look] else [Look, Attempt, Mark] + TakeActs(todo[1..])
  }

  /** What a thread does to give back what a failed call has taken. */
  function DropActs(taken: seq<nat>): seq<Act> {
    if taken == [] then [Unregister] else [Unregister, Close] + DropActs(taken[1..])
  }

  lemma FirstThenRest(s: State, t: nat, first: Act, rest: seq<Act>)
    requires Enabled(s, t, first) && CanRun(Step(s, t, first), StepsOf(t, rest))
    ensures CanRun(s, StepsOf(t, [first] + rest))
    ensures Run(s, StepsOf(t, [first] + rest)) == Run(Step(s, t, first), StepsOf(t, rest))
  {
    assert StepsOf(t, [first] + rest)[1..] == StepsOf(t, rest);
  }

  lemma ThreeThenRest(s: State, t: nat, a: Act, b: Act, c: Act, rest: seq<Act>)
    requires Enabled(s, t, a) && Enabled(Step(s, t, a), t, b) && Enabled(Step(Step(s, t, a), t, b), t, c)
    requires CanRun(Step(Step(Step(s, t, a), t, b), t, c), StepsOf(t, rest))
    ensures CanRun(s, StepsOf(t, [a, b, c] + rest))
    ensures Run(s, StepsOf(t, [a, b, c] + rest)) == Run(Step(Step(Step(s, t, a), t, b), t, c), StepsOf(t, rest))
  {
    hide Step, Enabled, Run, CanRun;
    var s1 := Step(s, t, a);
    FirstThenRest(Step(s1, t, b), t, c, rest);
    FirstThenRest(s1, t, b, [c] + rest);
    FirstThenRest(s, t, a, [b] + ([c] + rest));
    assert [a, b, c] + rest == [a] + ([b] + ([c] + rest));
  }

  /** A thread that meets only free resources takes the rest of its list. */
  lemma {:induction false} TakesFree(s: State, t: nat, todo: seq<nat>)
    requires Inv(s) && t in s.threads && s.threads[t].stage == Looking(todo)
    requires forall x :: x in todo ==> x !in s.files
    ensures CanRun(s, StepsOf(t, TakeActs(todo)))
    ensures var r := Run(s, StepsOf(t, TakeActs(todo)));
            t in r.threads && r.threads[t].stage.Resting? && r.threads[t].kept == s.threads[t].kept + Elements(s.threads[t].taken) + Elements(todo)
    decreases |todo|
  {
    hide Inv, SortDedup, Owns;
    if todo == [] {
      assert CanRun(Step(s, t, Look), StepsOf(t, []));
      FirstThenRest(s, t, Look, []);
    } else {
      hide Step, Enabled, Run, CanRun;
      TakesOne(s, t, todo);
      var s1 := Step(s, t, Look);
      var s2 := Step(s1, t, Attempt);
      var s3 := Step(s2, t, Mark);
      TakesFree(s3, t, todo[1..]);
      ThreeThenRest(s, t, Look, Attempt, Mark, TakeActs(todo[1..]));
      assert Elements(todo) == {todo[0]} + Elements(todo[1..]);
    }
  }

  lemma TakesOne(s: State, t: nat, todo: seq<nat>)
    requires Inv(s) && t in s.threads && s.threads[t].stage == Looking(todo) && todo != []
    requires forall x :: x in todo ==> x !in s.files
    ensures Enabled(s, t, Look) && Enabled(Step(s, t, Look), t, Attempt)
    ensures var s2 := Step(Step(s, t, Look), t, Attempt);
            && Enabled(s2, t, Mark)
            && var s3 := Step(s2, t, Mark);
               && Inv(s3) && t in s3.threads && s3.threads[t].stage == Looking(todo[1..])
               && s3.threads[t].kept == s.threads[t].kept
               && Elements(s3.threads[t].taken) == Elements(s.threads[t].taken) + {todo[0]}
               && forall x :: x in todo[1..] ==> x !in s3.files
  {
    hide Inv, At, ThreadOk, SortDedup, Owns;
    var g := s.threads[t];
    UnlockedIsFree(s, todo[0]);
    TodoIsSorted(s, t, todo);
    StepOk(s, t, Look);
    StepOk(Step(s, t, Look), t, Attempt);
    StepOk(Step(Step(s, t, Look), t, Attempt), t, Mark);
    assert Elements(g.taken + [todo[0]]) == Elements(g.taken) + {todo[0]};
  }

  lemma TodoIsSorted(s: State, t: nat, todo: seq<nat>)
    requires Inv(s) && t in s.threads && s.threads[t].stage == Looking(todo) && todo != []
    ensures forall x :: x in todo[1..] ==> todo[0] < x
  {
    hide At;
    var g := s.threads[t];
    assert SortDedup(g.want) == g.taken + todo;
    assert forall i :: 0 <= i < |todo| ==> (g.taken + todo)[|g.taken| + i] == todo[i];
  }

  /** A call whose whole list is free takes it, if nobody acts in between. */
  lemma FreeIsTaken(events: seq<Event>, t: nat, list: seq<nat>)
    requires CanRun(Nobody, events) && Enabled(Run(Nobody, events), t, Begin(list))
    requires forall x :: x in list ==> x !in Run(Nobody, events).files
    ensures var s, acts := Run(Nobody, events), [Begin(list)] + TakeActs(SortDedup(list));
            && CanRun(s, StepsOf(t, acts))
            && var r := Run(s, StepsOf(t, acts));
               t in r.threads && r.threads[t].stage.Resting? && Owns(r.threads[t]) == Owns(s.threads[t]) + Elements(list)
  {
    InitOk();
    RunOk(Nobody, events);
    var s := Run(Nobody, events);
    StepOk(s, t, Begin(list));
    var s1 := Step(s, t, Begin(list));
    TakesFree(s1, t, SortDedup(list));
    FirstThenRest(s, t, Begin(list), TakeActs(SortDedup(list)));
    RunOk(s, StepsOf(t, [Begin(list)] + TakeActs(SortDedup(list))));
    assert Elements(SortDedup(list)) == Elements(list);
  }

  /** A call that failed gives back what it took, and returns. */
  lemma {:induction false} FailureReturns(s: State, t: nat)
    requires Inv(s) && t in s.threads && s.threads[t].stage.Failing?
    ensures CanRun(s, StepsOf(t, DropActs(s.threads[t].taken)))
    ensures var r := Run(s, StepsOf(t, DropActs(s.threads[t].taken)));
            && t in r.threads && r.threads[t].stage.Resting? && Owns(r.threads[t]) == s.threads[t].kept
            && forall x :: x in s.threads[t].taken ==> Free(r, x)
    decreases |s.threads[t].taken|
  {
    var taken := s.threads[t].taken;
    hide SortDedup, At;
    StepOk(s, t, Unregister);
    var s1 := Step(s, t, Unregister);
    if taken == [] {
      assert CanRun(s1, StepsOf(t, []));
      FirstThenRest(s, t, Unregister, []);
    } else {
      StepOk(s1, t, Close);
      var s2 := Step(s1, t, Close);
      FailureReturns(s2, t);
      FirstThenRest(s1, t, Close, DropActs(taken[1..]));
      FirstThenRest(s, t, Unregister, [Close] + DropActs(taken[1..]));
      assert DropActs(taken) == [Unregister] + ([Close] + DropActs(taken[1..]));
      var r := Run(s, StepsOf(t, DropActs(taken)));
      RunOk(s, StepsOf(t, DropActs(taken)));
      FilesShrink(s2, t, taken[1..]);
      UnlockedIsFree(r, taken[0]);
    }
  }

  /** A thread that starts has no locks and can call; one that asks for a resource
      its own process has registered, or whose waiting ends, returns with what it kept. */
  lemma ThreadStarts(s: State, t: nat, process: nat)
    requires t !in s.threads
    ensures var r := Spawn(s, t, process);
            t in r.threads && r.threads[t].process == process && Owns(r.threads[t]) == {} && forall list :: Enabled(r, t, Begin(list))
  {
  }

  lemma RefusedReturns(s: State, t: nat, act: Act)
    requires Inv(s) && Enabled(s, t, act)
    requires
      || act.GiveUp?
      || (act.Look? && s.threads[t].stage.todo != [] && (s.threads[t].process, s.threads[t].stage.todo[0]) in s.registry)
    ensures var g, r := s.threads[t], Step(s, t, act);
            CanRun(r, StepsOf(t, DropActs(g.taken))) &&
            var q := Run(r, StepsOf(t, DropActs(g.taken)));
            t in q.threads && q.threads[t].stage.Resting? && Owns(q.threads[t]) == g.kept && forall x :: x in g.taken ==> Free(q, x)
  {
    StepOk(s, t, act);
    FailureReturns(Step(s, t, act), t);
  }

  /** Giving back takes no lock file. */
  lemma {:induction false} FilesShrink(s: State, t: nat, taken: seq<nat>)
    requires CanRun(s, StepsOf(t, DropActs(taken)))
    ensures forall x :: x in Run(s, StepsOf(t, DropActs(taken))).files ==> x in s.files
    decreases |taken|
  {
    if taken == [] {
      assert StepsOf(t, [Unregister])[1..] == [];
    } else {
      var acts := DropActs(taken);
      assert acts == [Unregister] + ([Close] + DropActs(taken[1..]));
      assert StepsOf(t, acts)[1..] == StepsOf(t, [Close] + DropActs(taken[1..]));
      assert StepsOf(t, [Close] + DropActs(taken[1..]))[1..] == StepsOf(t, DropActs(taken[1..]));
      var s2 := After(After(s, Stepped(t, Unregister)), Stepped(t, Close));
      FilesShrink(s2, t, taken[1..]);
    }
  }

  // ----- waiting

  /** The next resource that a thread is going to ask for. */
  predicate Asks(g: Thread) { (g.stage.Looking? || g.stage.Trying?) && g.stage.todo != [] }

  /** `t` cannot go on before `u` releases the lock file. */
  predicate WaitsFor(s: State, t: nat, u: nat) {
    && t in s.threads
    && Asks(s.threads[t])
    && s.threads[t].stage.todo[0] in s.files
    && s.files[s.threads[t].stage.todo[0]] == u
  }

  predicate Chain(s: State, c: seq<nat>) {
    forall i :: 0 <= i < |c| - 1 ==> WaitsFor(s, c[i], c[i + 1])
  }

  /** Every list begins above the locks that its thread already keeps. */
  predicate OrderlyThread(g: Thread) {
    InCall(g) ==> forall k, w :: k in g.kept && w in g.want ==> k < w
  }

  predicate Orderly(s: State) {
    forall t :: t in s.threads ==> OrderlyThread(s.threads[t])
  }

  /** What a caller can check before the call. */
  predicate OrderlyEvent(s: State, e: Event) {
    e.Stepped? && e.act.Begin? && e.thread in s.threads ==>
      forall k, w :: k in s.threads[e.thread].kept && w in e.act.list ==> k < w
  }

  predicate OrderlyRun(s: State, events: seq<Event>)
    requires CanRun(s, events)
    decreases |events|
  {
    events != [] ==> OrderlyEvent(s, events[0]) && OrderlyRun(After(s, events[0]), events[1..])
  }

  lemma OrderlyStays(s: State, e: Event)
    requires Orderly(s) && Possible(s, e) && OrderlyEvent(s, e)
    ensures Orderly(After(s, e))
  {
    var r := After(s, e);
    forall t | t in r.threads ensures OrderlyThread(r.threads[t]) {
      if t in s.threads {
        assert OrderlyThread(s.threads[t]);
      }
    }
  }

  lemma {:induction false} OrderlyThroughout(s: State, events: seq<Event>)
    requires Orderly(s) && CanRun(s, events) && OrderlyRun(s, events)
    ensures Orderly(Run(s, events))
    decreases |events|
  {
    if events != [] {
      OrderlyStays(s, events[0]);
      OrderlyThroughout(After(s, events[0]), events[1..]);
    }
  }

  /** A thread that asks for a resource owns only smaller ones. */
  lemma AskedIsLargest(g: Thread, x: nat)
    requires ThreadOk(g) && OrderlyThread(g) && Asks(g) && x in Owns(g)
    ensures x < g.stage.todo[0]
  {
    var all := g.taken + g.stage.todo;
    assert all == SortDedup(g.want) && all[|g.taken|] == g.stage.todo[0];
    assert g.stage.todo[0] in all;
    if x in g.taken {
      var i :| 0 <= i < |g.taken| && g.taken[i] == x;
      assert all[i] == x;
    }
  }

  /** Along a chain of waiting threads the awaited resources increase. */
  lemma {:induction false} AwaitedIncreases(s: State, c: seq<nat>)
    requires Inv(s) && Orderly(s) && |c| >= 2 && Chain(s, c) && WaitsFor(s, c[0], c[1])
    requires c[|c| - 1] in s.threads && Asks(s.threads[c[|c| - 1]])
    ensures s.threads[c[0]].stage.todo[0] < s.threads[c[|c| - 1]].stage.todo[0]
    decreases |c|
  {
    assert WaitsFor(s, c[0], c[1]);
    var x := s.threads[c[0]].stage.todo[0];
    assert At(s, x);
    if |c| > 2 {
      assert WaitsFor(s, c[1], c[2]);
      var rest := c[1..];
      forall i | 0 <= i < |rest| - 1 ensures WaitsFor(s, rest[i], rest[i + 1]) {
        assert WaitsFor(s, c[i + 1], c[i + 1 + 1]);
      }
      AwaitedIncreases(s, rest);
    }
    AskedIsLargest(s.threads[c[1]], x);
  }

  /** If every list begins above the locks that its thread keeps, then no run
      ever reaches a cycle of waiting threads. */
  lemma NoWaitCycle(events: seq<Event>, c: seq<nat>)
    requires CanRun(Nobody, events) && OrderlyRun(Nobody, events)
    requires |c| >= 2 && Chain(Run(Nobody, events), c)
    ensures c[0] != c[|c| - 1]
  {
    var s := Run(Nobody, events);
    InitOk();
    RunOk(Nobody, events);
    OrderlyThroughout(Nobody, events);
    assert WaitsFor(s, c[0], c[1]);
    if c[0] == c[|c| - 1] {
      AwaitedIncreases(s, c);
    }
  }

  // ----- a thread that already keeps a larger lock

  /** Taking one free resource, from the call to its return. */
  function Take(t: nat, x: nat): seq<Event> {
    [Stepped(t, Begin([x])), Stepped(t, Look), Stepped(t, Attempt), Stepped(t, Mark), Stepped(t, Look)]
  }

  function Ask(t: nat, x: nat): seq<Event> { [Stepped(t, Begin([x])), Stepped(t, Look)] }

  predicate CanTake(s: State, t: nat, x: nat) {
    t in s.threads && s.threads[t].stage.Resting? && s.threads[t].taken == [] && x !in s.files && (s.threads[t].process, x) !in s.registry
  }

  lemma Prepend(s: State, e: Event, rest: seq<Event>)
    requires Possible(s, e) && CanRun(After(s, e), rest)
    ensures CanRun(s, [e] + rest) && Run(s, [e] + rest) == Run(After(s, e), rest)
  {
    assert ([e] + rest)[1..] == rest;
  }

  /** The run of `events` from its event `k` on. */
  lemma From(s: State, events: seq<Event>, k: nat)
    requires k < |events| && Possible(s, events[k]) && CanRun(After(s, events[k]), events[k + 1..])
    ensures CanRun(s, events[k..]) && Run(s, events[k..]) == Run(After(s, events[k]), events[k + 1..])
  {
    assert events[k..][1..] == events[k + 1..];
  }

  lemma {:induction false} Append(s: State, before: seq<Event>, after: seq<Event>)
    requires CanRun(s, before) && CanRun(Run(s, before), after)
    ensures CanRun(s, before + after) && Run(s, before + after) == Run(Run(s, before), after)
    decreases |before|
  {
    if before == [] {
      assert before + after == after;
    } else {
      Append(After(s, before[0]), before[1..], after);
      Prepend(s, before[0], before[1..] + after);
      assert [before[0]] + (before[1..] + after) == before + after;
    }
  }

  lemma SingleSorted(x: nat)
    ensures SortDedup([x]) == [x] && Elements([] + [x]) == {x} && [x][1..] == []
  {
  }

  lemma TakeRuns(s: State, t: nat, x: nat)
    requires CanTake(s, t, x)
    ensures CanRun(s, Take(t, x))
    ensures Run(s, Take(t, x)) ==
            s.(threads := s.threads[t := s.threads[t].(kept := s.threads[t].kept + {x}, want := [x])],
               files := s.files[x := t],
               registry := s.registry + {(s.threads[t].process, x)})
  {
    hide SortDedup;
    SingleSorted(x);
    var e := Take(t, x);
    var s1 := After(s, e[0]);
    var s2 := After(s1, e[1]);
    var s3 := After(s2, e[2]);
    var s4 := After(s3, e[3]);
    var s5 := After(s4, e[4]);
    From(s4, e, 4);
    From(s3, e, 3);
    From(s2, e, 2);
    From(s1, e, 1);
    From(s, e, 0);
    assert s5.threads[t] == s.threads[t].(kept := s.threads[t].kept + {x}, want := [x]);
  }

  lemma AskRuns(s: State, t: nat, x: nat)
    requires t in s.threads && s.threads[t].stage.Resting? && (s.threads[t].process, x) !in s.registry
    ensures CanRun(s, Ask(t, x))
    ensures Run(s, Ask(t, x)) == s.(threads := s.threads[t := s.threads[t].(want := [x], taken := [], stage := Trying([x]))])
  {
    hide SortDedup;
    SingleSorted(x);
    var e := Ask(t, x);
    var s1 := After(s, e[0]);
    From(s1, e, 1);
    From(s, e, 0);
  }

  lemma SpawnsRun()
    ensures CanRun(Nobody, [Spawned(0, 0), Spawned(1, 1)])
    ensures Run(Nobody, [Spawned(0, 0), Spawned(1, 1)]) == Spawn(Spawn(Nobody, 0, 0), 1, 1)
  {
    From(Spawn(Nobody, 0, 0), [Spawned(0, 0), Spawned(1, 1)], 1);
    From(Nobody, [Spawned(0, 0), Spawned(1, 1)], 0);
  }

  /** Two processes, each of which keeps the lock of an earlier lease, and asks
      for the other's. */
  function Entangled(x: nat, y: nat): seq<Event> {
    [Spawned(0, 0), Spawned(1, 1)] + (Take(0, y) + (Take(1, x) + (Ask(0, x) + Ask(1, y))))
  }

  /** A run in which every list begins above the kept locks, except perhaps for
      calls with the list `[x]` by threads that keep exactly `y`. */
  predicate OrderlyBut(s: State, events: seq<Event>, y: nat, x: nat)
    requires CanRun(s, events)
    decreases |events|
  {
    events != [] ==>
      && (OrderlyEvent(s, events[0]) || (s.threads[events[0].thread].kept == {y} && events[0].act.list == [x]))
      && OrderlyBut(After(s, events[0]), events[1..], y, x)
  }

  lemma {:induction false} OrderlyAppend(s: State, before: seq<Event>, after: seq<Event>, y: nat, x: nat)
    requires CanRun(s, before) && CanRun(Run(s, before), after) && CanRun(s, before + after)
    requires OrderlyBut(s, before, y, x) && OrderlyBut(Run(s, before), after, y, x)
    ensures OrderlyBut(s, before + after, y, x)
    decreases |before|
  {
    if before == [] {
      assert before + after == after;
    } else {
      assert (before + after)[1..] == before[1..] + after;
      OrderlyAppend(After(s, before[0]), before[1..], after, y, x);
    }
  }

  /** After the first event, a call runs no further call. */
  lemma CallIsOrderlyBut(s: State, t: nat, z: nat, events: seq<Event>, y: nat, x: nat)
    requires events == Take(t, z) || events == Ask(t, z)
    requires CanRun(s, events) && t in s.threads
    requires (forall k :: k in s.threads[t].kept ==> k < z) || (s.threads[t].kept == {y} && z == x)
    ensures OrderlyBut(s, events, y, x)
  {
    RestIsOrderly(After(s, events[0]), events[1..], y, x);
  }

  lemma {:induction false} RestIsOrderly(s: State, events: seq<Event>, y: nat, x: nat)
    requires CanRun(s, events)
    requires forall i :: 0 <= i < |events| ==> events[i].Stepped? && !events[i].act.Begin?
    ensures OrderlyBut(s, events, y, x)
    decreases |events|
  {
    if events != [] {
      RestIsOrderly(After(s, events[0]), events[1..], y, x);
    }
  }

  lemma {:induction false} OrderlyButOrderly(s: State, events: seq<Event>, y: nat, x: nat)
    requires CanRun(s, events) && OrderlyBut(s, events, y, x) && y < x
    ensures OrderlyRun(s, events)
    decreases |events|
  {
    if events != [] {
      OrderlyButOrderly(After(s, events[0]), events[1..], y, x);
    }
  }

  lemma EntangledRuns(x: nat, y: nat)
    requires x < y
    ensures CanRun(Nobody, Entangled(x, y)) && OrderlyBut(Nobody, Entangled(x, y), y, x)
    ensures Chain(Run(Nobody, Entangled(x, y)), [0, 1, 0])
  {
    hide CanRun, Run, OrderlyBut, Take, Ask;
    var spawns := [Spawned(0, 0), Spawned(1, 1)];
    SpawnsRun();
    var s0 := Run(Nobody, spawns);
    TakeRuns(s0, 0, y);
    var s1 := Run(s0, Take(0, y));
    TakeRuns(s1, 1, x);
    var s2 := Run(s1, Take(1, x));
    AskRuns(s2, 0, x);
    var s3 := Run(s2, Ask(0, x));
    AskRuns(s3, 1, y);
    assert Chain(Run(s3, Ask(1, y)), [0, 1, 0]);
    CallIsOrderlyBut(s0, 0, y, Take(0, y), y, x);
    CallIsOrderlyBut(s1, 1, x, Take(1, x), y, x);
    CallIsOrderlyBut(s2, 0, x, Ask(0, x), y, x);
    CallIsOrderlyBut(s3, 1, y, Ask(1, y), y, x);
    SpawnsOrderly(y, x);
    Joined(s2, Ask(0, x), Ask(1, y), y, x);
    Joined(s1, Take(1, x), Ask(0, x) + Ask(1, y), y, x);
    Joined(s0, Take(0, y), Take(1, x) + (Ask(0, x) + Ask(1, y)), y, x);
    Joined(Nobody, spawns, Take(0, y) + (Take(1, x) + (Ask(0, x) + Ask(1, y))), y, x);
  }

  lemma SpawnsOrderly(y: nat, x: nat)
    requires CanRun(Nobody, [Spawned(0, 0), Spawned(1, 1)])
    ensures OrderlyBut(Nobody, [Spawned(0, 0), Spawned(1, 1)], y, x)
  {
    var spawns := [Spawned(0, 0), Spawned(1, 1)];
    assert spawns[1..] == [Spawned(1, 1)];
  }

  lemma Joined(s: State, before: seq<Event>, after: seq<Event>, y: nat, x: nat)
    requires CanRun(s, before) && CanRun(Run(s, before), after)
    requires OrderlyBut(s, before, y, x) && OrderlyBut(Run(s, before), after, y, x)
    ensures CanRun(s, before + after) && Run(s, before + after) == Run(Run(s, before), after)
    ensures OrderlyBut(s, before + after, y, x)
  {
    Append(s, before, after);
    OrderlyAppend(s, before, after, y, x);
  }

  /** Some run of otherwise orderly calls reaches a cycle of waiting threads. */
  ghost predicate CanCycle(y: nat, x: nat) {
    exists events, c ::
      && CanRun(Nobody, events)
      && OrderlyBut(Nobody, events, y, x)
      && |c| >= 2
      && Chain(Run(Nobody, events), c)
      && c[0] == c[|c| - 1]
  }

  /** Sorting each list does not order the locks of different calls. A call for
      `x` by a thread that keeps `y` can be part of a cycle exactly when the
      list does not begin above the kept lock. */
  lemma CycleIff(y: nat, x: nat)
    requires x != y
    ensures CanCycle(y, x) <==> x < y
  {
    if x < y {
      EntangledRuns(x, y);
      var c := [0, 1, 0];
      assert |c| >= 2 && c[0] == c[|c| - 1] && Chain(Run(Nobody, Entangled(x, y)), c);
    } else if CanCycle(y, x) {
      var events, c :|
        && CanRun(Nobody, events)
        && OrderlyBut(Nobody, events, y, x)
        && |c| >= 2
        && Chain(Run(Nobody, events), c)
        && c[0] == c[|c| - 1];
      OrderlyButOrderly(Nobody, events, y, x);
      NoWaitCycle(events, c);
    }
  }
}
