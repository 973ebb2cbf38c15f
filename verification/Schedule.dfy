/** When a resource is reconciled next, and how often it may be rebased. Times
    and durations are milliseconds of one clock that never goes back. */
module Schedule {
  import opened Dns

  const UNSTABLE_RETRY: nat := 200
  const ERROR_RETRY: nat := 250
  const IDENTITY_RETRY: nat := 5000
  const BREAKER_WINDOW: nat := 5000
  const BREAKER_THRESHOLD: nat := 6
  const BREAKER_COOLDOWN: nat := 2000
  const MAX_ERROR_RETRY: nat := 30000
  const MAX_U64: nat := 0xFFFF_FFFF_FFFF_FFFF
  const MAX_U32: nat := 0xFFFF_FFFF

  datatype Entry = Entry(readyAt: nat, generation: nat, errors: nat)

  datatype Breaker = Breaker(attempts: seq<nat>, openUntil: Option<nat>)

  function Max(a: nat, b: nat): nat { if a < b then b else a }
  function Min(a: nat, b: nat): nat { if a < b then a else b }
  function Increment(n: nat, limit: nat): nat { if n < limit then n + 1 else n }

  function Pow2(n: nat): (r: nat)
    ensures r >= 1
  {
    if n == 0 then 1 else 2 * Pow2(n - 1)
  }

  // ----- the retry schedule of one resource

  /** An event: a resource that already waits keeps its time. */
  function Touched(e: Option<Entry>, now: nat): Entry {
    match e
    case Some(p) => p.(generation := Increment(p.generation, MAX_U64))
    case None => Entry(now, 0, 0)
  }

  function Backoff(delay: nat, errors: nat): nat {
    Min(delay * Pow2(Min(if errors == 0 then 0 else errors - 1, 7)), MAX_ERROR_RETRY)
  }

  function Deferred(e: Option<Entry>, delay: nat, failed: bool, now: nat): Entry {
    var p := if e.Some? then e.value else Entry(now + delay, 0, 0);
    var errors := if failed then Increment(p.errors, MAX_U32) else 0;
    var wait := if failed then Backoff(delay, errors) else delay;
    Entry(Max(p.readyAt, now + wait), p.generation, errors)
  }

  /** The end of a pass that began at `generation`. */
  function Completed(e: Option<Entry>, generation: nat, now: nat): Option<Entry> {
    if e.Some? && e.value.generation != generation
    then Some(Entry(now, e.value.generation, 0))
    else None
  }

  function GenerationOf(e: Option<Entry>): nat { if e.Some? then e.value.generation else 0 }

  /** The waiting times the engine ever asks for. */
  predicate EngineDelay(delay: nat) { delay <= IDENTITY_RETRY }

  datatype Op =
    | Touch
    | Defer(delay: nat, failed: bool)
    | Complete(generation: nat)
    | End

  /** A step of the schedule at one time. */
  datatype Timed = At(now: nat, op: Op)

  function Step(e: Option<Entry>, t: Timed): Option<Entry> {
    match t.op
    case Touch => Some(Touched(e, t.now))
    case Defer(delay, failed) => Some(Deferred(e, delay, failed, t.now))
    case Complete(generation) => Completed(e, generation, t.now)
    case End => None
  }

  function Run(e: Option<Entry>, ops: seq<Timed>): Option<Entry>
    decreases |ops|
  {
    if ops == [] then e else Step(Run(e, ops[..|ops| - 1]), ops[|ops| - 1])
  }

  /** The clock never goes back and waiting times are the engine's. */
  predicate Sane(ops: seq<Timed>) {
    && (forall i, j :: 0 <= i < j < |ops| ==> ops[i].now <= ops[j].now)
    && (forall i :: 0 <= i < |ops| && ops[i].op.Defer? ==> EngineDelay(ops[i].op.delay))
  }

  /** No run ever schedules a resource more than thirty seconds ahead. */
  lemma {:induction false} NeverFarAhead(ops: seq<Timed>)
    requires Sane(ops) && ops != []
    ensures var e := Run(None, ops);
            e.Some? ==> e.value.readyAt <= ops[|ops| - 1].now + MAX_ERROR_RETRY
    decreases |ops|
  {
    var front := ops[..|ops| - 1];
    if front != [] {
      NeverFarAhead(front);
    }
  }

  /** Events and deferrals never make a waiting resource due earlier, in any
      number and order. */
  lemma {:induction false} NeverEarlier(e: Entry, ops: seq<Timed>)
    requires forall i :: 0 <= i < |ops| ==> ops[i].op.Touch? || ops[i].op.Defer?
    ensures var after := Run(Some(e), ops);
            after.Some? && e.readyAt <= after.value.readyAt && e.generation <= after.value.generation
    decreases |ops|
  {
    if ops != [] {
      NeverEarlier(e, ops[..|ops| - 1]);
    }
  }

  predicate HasTouch(ops: seq<Timed>) { exists i :: 0 <= i < |ops| && ops[i].op.Touch? }

  /** A pass that began while the resource was pending, during which events and
      deferrals arrive, forgets none of the events: the completed resource is
      still pending and due exactly if there was an event, unless the event
      counter was already saturated. */
  lemma TouchDuringPassSurvives(e: Entry, ops: seq<Timed>, now: nat)
    requires forall i :: 0 <= i < |ops| ==> ops[i].op.Touch? || ops[i].op.Defer?
    requires e.generation <= MAX_U64
    ensures var done := Completed(Run(Some(e), ops), e.generation, now);
            && (done.Some? <==> HasTouch(ops) && e.generation < MAX_U64)
            && (done.Some? ==> done.value.readyAt == now && done.value.errors == 0)
  {
    TouchesCount(e, ops);
  }

  lemma {:induction false} TouchesCount(e: Entry, ops: seq<Timed>)
    requires forall i :: 0 <= i < |ops| ==> ops[i].op.Touch? || ops[i].op.Defer?
    requires e.generation <= MAX_U64
    ensures var after := Run(Some(e), ops);
            && after.Some?
            && e.generation <= after.value.generation <= MAX_U64
            && (after.value.generation != e.generation <==> HasTouch(ops) && e.generation < MAX_U64)
    decreases |ops|
  {
    if ops != [] {
      var front := ops[..|ops| - 1];
      TouchesCount(e, front);
      assert HasTouch(ops) <==> HasTouch(front) || ops[|ops| - 1].op.Touch? by {
        if HasTouch(front) {
          var i :| 0 <= i < |front| && front[i].op.Touch?;
          assert ops[i].op.Touch?;
        }
      }
    }
  }

  lemma {:induction false} FirstThenRest(e: Option<Entry>, ops: seq<Timed>)
    requires ops != []
    ensures Run(e, ops) == Run(Step(e, ops[0]), ops[1..])
    decreases |ops|
  {
    if |ops| > 1 {
      FirstThenRest(e, ops[..|ops| - 1]);
      assert ops[1..][..|ops| - 2] == ops[..|ops| - 1][1..];
    } else {
      assert ops[..0] == [];
    }
  }

  /** A pass over a resource that was not pending forgets the first event: it
      stays pending exactly if another event follows. */
  lemma TouchWhileIdle(ops: seq<Timed>, now: nat)
    requires forall i :: 0 <= i < |ops| ==> ops[i].op.Touch? || ops[i].op.Defer?
    ensures Completed(Run(None, ops), GenerationOf(None), now).Some? <==> ops != [] && HasTouch(ops[1..])
  {
    if ops != [] {
      FirstThenRest(None, ops);
      TouchesCount(Step(None, ops[0]).value, ops[1..]);
    }
  }

  /** The end of a lease forgets whatever was scheduled: what follows does not
      depend on what was before. */
  lemma {:induction false} EndForgetsSchedule(e: Option<Entry>, before: seq<Timed>, now: nat, after: seq<Timed>)
    ensures Run(e, before + [At(now, End)] + after) == Run(None, after)
    decreases |after|
  {
    if after == [] {
      assert (before + [At(now, End)] + after)[..|before|] == before;
    } else {
      EndForgetsSchedule(e, before, now, after[..|after| - 1]);
      var all := before + [At(now, End)] + after;
      assert all[..|all| - 1] == before + [At(now, End)] + after[..|after| - 1];
    }
  }

  // ----- how long failures wait

  /** The wait after the n-th failure in a row: it starts at `delay`, doubles seven
      times, and never exceeds the limit. */
  lemma {:induction false} BackoffDoubles(delay: nat, n: nat)
    requires 0 < n
    ensures Backoff(delay, 0) == Backoff(delay, 1) == Min(delay, MAX_ERROR_RETRY)
    ensures Backoff(delay, n + 1) == if n <= 7 then Min(2 * Backoff(delay, n), MAX_ERROR_RETRY) else Backoff(delay, n)
    ensures Min(delay, MAX_ERROR_RETRY) <= Backoff(delay, n) <= MAX_ERROR_RETRY
  {
    assert Pow2(0) == 1;
    if n <= 7 {
      Doubled(delay, n - 1);
    }
    PowerGrows(delay, Min(n - 1, 7));
  }

  lemma Doubled(delay: nat, k: nat)
    ensures delay * Pow2(k + 1) == 2 * (delay * Pow2(k))
  {
    hide Pow2;
    assert Pow2(k + 1) == 2 * Pow2(k) by {
      PowStep(k);
    }
  }

  lemma PowStep(k: nat)
    ensures Pow2(k + 1) == 2 * Pow2(k)
  {
  }

  lemma PowerGrows(delay: nat, k: nat)
    ensures delay <= delay * Pow2(k)
  {
    hide Pow2;
    assert delay * 1 <= delay * Pow2(k);
  }

  /** `n` failures in a row, at the given times. */
  function Failed(e: Option<Entry>, delay: nat, times: seq<nat>): Option<Entry>
    decreases |times|
  {
    if times == [] then e else Some(Deferred(Failed(e, delay, times[..|times| - 1]), delay, true, times[|times| - 1]))
  }

  /** Failures in a row are counted, wait longer and longer, and do not forget the
      events that arrived; anything else than a failure starts the count again. */
  lemma {:induction false} FailuresBackOff(e: Option<Entry>, delay: nat, times: seq<nat>)
    requires 0 < |times| <= MAX_U32 && (e.Some? ==> e.value.errors == 0)
    ensures var r := Failed(e, delay, times);
            && r.Some? && r.value.errors == |times| && r.value.generation == GenerationOf(e)
            && times[|times| - 1] + Backoff(delay, |times|) <= r.value.readyAt
    ensures forall now: nat, wait: nat :: Deferred(Failed(e, delay, times), wait, false, now).errors == 0
    ensures forall now: nat, wait: nat :: now + wait <= Deferred(Failed(e, delay, times), wait, false, now).readyAt
    decreases |times|
  {
    hide Backoff;
    if |times| > 1 {
      FailuresBackOff(e, delay, times[..|times| - 1]);
    } else {
      assert times[..0] == [];
    }
  }

  // ----- the circuit breaker of one resource

  /** Drops attempts that left the window. */
  function Recent(attempts: seq<nat>, now: nat): seq<nat>
    decreases |attempts|
  {
    if attempts != [] && attempts[0] + BREAKER_WINDOW < now then Recent(attempts[1..], now) else attempts
  }

  /** The breaker's answer: `None` permits the attempt. */
  function Gate(b: Breaker, now: nat): (Breaker, Option<nat>) {
    if b.openUntil.Some? && now < b.openUntil.value then
      (b, Some(b.openUntil.value - now))
    else
      var attempts := if b.openUntil.Some? then [] else b.attempts;
      var recent := Recent(attempts, now);
      if |recent| >= BREAKER_THRESHOLD
      then (Breaker([], Some(now + BREAKER_COOLDOWN)), Some(BREAKER_COOLDOWN))
      else (Breaker(recent + [now], None), None)
  }

  predicate Ascending(times: seq<nat>) {
    forall i, j :: 0 <= i < j < |times| ==> times[i] <= times[j]
  }

  /** How many of the times are not older than the window. */
  function Within(times: seq<nat>, now: nat): nat {
    if times == [] then 0 else Within(times[1..], now) + if times[0] + BREAKER_WINDOW < now then 0 else 1
  }

  lemma {:induction false} RecentCounts(times: seq<nat>, now: nat)
    requires Ascending(times)
    ensures |Recent(times, now)| == Within(times, now)
    ensures forall t :: t in Recent(times, now) <==> t in times && now <= t + BREAKER_WINDOW
    decreases |times|
  {
    if times != [] {
      assert times == [times[0]] + times[1..];
      RecentCounts(times[1..], now);
      if times[0] + BREAKER_WINDOW >= now {
        AllRecent(times, now);
      }
    }
  }

  lemma {:induction false} AllRecent(times: seq<nat>, now: nat)
    requires forall i :: 0 <= i < |times| ==> now <= times[i] + BREAKER_WINDOW
    ensures Within(times, now) == |times|
    decreases |times|
  {
    if times != [] {
      AllRecent(times[1..], now);
    }
  }

  /** What happens to the breaker of a resource: it is asked for an attempt, or
      the lease ends and the breaker is dropped. */
  datatype Use = Ask(now: nat) | EndLease(now: nat)

  /** A permitted attempt, and the number of lease ends before it. */
  datatype Attempt = Attempt(now: nat, epoch: nat)

  datatype Trial = Trial(breaker: Breaker, epoch: nat, attempts: seq<Attempt>)

  function Used(t: Trial, use: Use): Trial {
    match use
    case Ask(now) =>
      var asked := Gate(t.breaker, now);
      Trial(asked.0, t.epoch, if asked.1.None? then t.attempts + [Attempt(now, t.epoch)] else t.attempts)
    case EndLease(_) =>
      Trial(Breaker([], None), t.epoch + 1, t.attempts)
  }

  /** The breaker and all permitted attempts after a run of uses. */
  function Try(uses: seq<Use>): Trial
    decreases |uses|
  {
    if uses == [] then Trial(Breaker([], None), 0, []) else Used(Try(uses[..|uses| - 1]), uses[|uses| - 1])
  }

  /** No attempt can be permitted before this time. */
  function Floor(b: Breaker, now: nat): nat {
    if b.openUntil.Some? then Max(now, b.openUntil.value) else now
  }

  /** The remembered attempts are the latest permitted ones; every forgotten
      one is a cooldown away from the next permission. */
  predicate Remembers(b: Breaker, permitted: seq<nat>, now: nat) {
    && |b.attempts| <= |permitted|
    && |b.attempts| <= BREAKER_THRESHOLD
    && b.attempts == permitted[|permitted| - |b.attempts|..]
    && (forall i :: 0 <= i < |permitted| - |b.attempts| ==> permitted[i] + BREAKER_COOLDOWN <= Floor(b, now))
    && (forall i :: 0 <= i < |permitted| ==> permitted[i] <= now)
    && (b.openUntil.Some? ==> b.attempts == [])
  }

  lemma {:induction false} RecentIsSuffix(attempts: seq<nat>, now: nat)
    ensures var r := Recent(attempts, now);
            && |r| <= |attempts|
            && r == attempts[|attempts| - |r|..]
            && (forall i :: 0 <= i < |attempts| - |r| ==> attempts[i] + BREAKER_WINDOW < now)
    decreases |attempts|
  {
    if attempts != [] && attempts[0] + BREAKER_WINDOW < now {
      RecentIsSuffix(attempts[1..], now);
      var r := Recent(attempts, now);
      forall i | 0 <= i < |attempts| - |r|
        ensures attempts[i] + BREAKER_WINDOW < now
      {
        if i > 0 {
          assert attempts[i] == attempts[1..][i - 1];
        }
      }
    }
  }

  /** Dropping attempts that left the window forgets only what is far away. */
  lemma RecentRemembers(attempts: seq<nat>, permitted: seq<nat>, now: nat)
    requires |attempts| <= |permitted| && attempts == permitted[|permitted| - |attempts|..]
    requires forall i :: 0 <= i < |permitted| - |attempts| ==> permitted[i] + BREAKER_COOLDOWN <= now
    ensures var r := Recent(attempts, now);
            && |r| <= |attempts|
            && r == permitted[|permitted| - |r|..]
            && forall i :: 0 <= i < |permitted| - |r| ==> permitted[i] + BREAKER_COOLDOWN <= now
  {
    RecentIsSuffix(attempts, now);
    var r, k := Recent(attempts, now), |permitted| - |attempts|;
    forall i | 0 <= i < |permitted| - |r|
      ensures permitted[i] + BREAKER_COOLDOWN <= now
    {
      if i >= k {
        assert attempts[i - k] == permitted[i];
      }
    }
  }

  lemma GateRemembers(b: Breaker, permitted: seq<nat>, last: nat, now: nat)
    requires Remembers(b, permitted, last) && last <= now
    ensures var asked := Gate(b, now);
            Remembers(asked.0, if asked.1.None? then permitted + [now] else permitted, now)
    ensures Gate(b, now).1.None? ==> forall i :: 0 <= i <= |permitted| - BREAKER_THRESHOLD ==> permitted[i] + BREAKER_COOLDOWN <= now
  {
    hide Recent;
    if !(b.openUntil.Some? && now < b.openUntil.value) {
      var attempts := if b.openUntil.Some? then [] else b.attempts;
      AttemptsAreKnown(b, permitted, last, now);
      RecentRemembers(attempts, permitted, now);
      if |Recent(attempts, now)| < BREAKER_THRESHOLD {
        PermissionRemembers(Recent(attempts, now), permitted, now);
      }
    }
  }

  lemma AttemptsAreKnown(b: Breaker, permitted: seq<nat>, last: nat, now: nat)
    requires Remembers(b, permitted, last) && last <= now && (b.openUntil.Some? ==> b.openUntil.value <= now)
    ensures var attempts := if b.openUntil.Some? then [] else b.attempts;
            && |attempts| <= |permitted| && attempts == permitted[|permitted| - |attempts|..]
            && (forall i :: 0 <= i < |permitted| - |attempts| ==> permitted[i] + BREAKER_COOLDOWN <= now)
            && (forall i :: 0 <= i < |permitted| ==> permitted[i] <= now)
  {
  }

  lemma PermissionRemembers(recent: seq<nat>, permitted: seq<nat>, now: nat)
    requires |recent| <= |permitted| && |recent| < BREAKER_THRESHOLD && recent == permitted[|permitted| - |recent|..]
    requires forall i :: 0 <= i < |permitted| - |recent| ==> permitted[i] + BREAKER_COOLDOWN <= now
    requires forall i :: 0 <= i < |permitted| ==> permitted[i] <= now
    ensures Remembers(Breaker(recent + [now], None), permitted + [now], now)
  {
    assert (permitted + [now])[|permitted| - |recent|..] == recent + [now];
  }

  /** The clock never goes back. */
  predicate Forward(uses: seq<Use>) {
    forall i, j :: 0 <= i < j < |uses| ==> uses[i].now <= uses[j].now
  }

  function LastOf(uses: seq<Use>): nat { if uses == [] then 0 else uses[|uses| - 1].now }

  /** The times of the attempts since the last lease end. */
  function Since(attempts: seq<Attempt>, epoch: nat): seq<nat> {
    if attempts == [] || attempts[|attempts| - 1].epoch != epoch then []
    else Since(attempts[..|attempts| - 1], epoch) + [attempts[|attempts| - 1].now]
  }

  /** Attempts come in the order of time and of lease ends. */
  predicate Ordered(attempts: seq<Attempt>) {
    forall i, j :: 0 <= i < j < |attempts| ==> attempts[i].now <= attempts[j].now && attempts[i].epoch <= attempts[j].epoch
  }

  /** The attempts of the present epoch are the last ones. */
  lemma {:induction false} SinceIsSuffix(attempts: seq<Attempt>, epoch: nat)
    requires Ordered(attempts) && forall i :: 0 <= i < |attempts| ==> attempts[i].epoch <= epoch
    ensures var s := Since(attempts, epoch);
            && |s| <= |attempts|
            && (forall i :: 0 <= i < |s| ==> s[i] == attempts[|attempts| - |s| + i].now)
            && (forall i :: 0 <= i < |attempts| ==> (attempts[i].epoch == epoch <==> i >= |attempts| - |s|))
    decreases |attempts|
  {
    if attempts != [] && attempts[|attempts| - 1].epoch == epoch {
      SinceIsSuffix(attempts[..|attempts| - 1], epoch);
    }
  }

  /** What is known after every run. */
  predicate Known(t: Trial, now: nat) {
    && Ordered(t.attempts)
    && (forall i :: 0 <= i < |t.attempts| ==> t.attempts[i].epoch <= t.epoch && t.attempts[i].now <= now)
    && Remembers(t.breaker, Since(t.attempts, t.epoch), now)
  }

  lemma SinceGrows(attempts: seq<Attempt>, epoch: nat, now: nat)
    ensures Since(attempts + [Attempt(now, epoch)], epoch) == Since(attempts, epoch) + [now]
  {
    assert (attempts + [Attempt(now, epoch)])[..|attempts|] == attempts;
  }

  lemma OrderGrows(attempts: seq<Attempt>, epoch: nat, last: nat, now: nat)
    requires Ordered(attempts) && last <= now
    requires forall i :: 0 <= i < |attempts| ==> attempts[i].epoch <= epoch && attempts[i].now <= last
    ensures Ordered(attempts + [Attempt(now, epoch)])
  {
  }

  lemma KnownAfterAsk(t: Trial, last: nat, now: nat)
    requires Known(t, last) && last <= now
    ensures Known(Used(t, Ask(now)), now)
  {
    hide Gate, Remembers, Since, Ordered;
    GateRemembers(t.breaker, Since(t.attempts, t.epoch), last, now);
    if Gate(t.breaker, now).1.None? {
      SinceGrows(t.attempts, t.epoch, now);
      OrderGrows(t.attempts, t.epoch, last, now);
    }
  }

  lemma KnownAfterEnd(t: Trial, last: nat, now: nat)
    requires Known(t, last) && last <= now
    ensures Known(Used(t, EndLease(now)), now)
  {
    assert Since(t.attempts, t.epoch + 1) == [];
  }

  lemma KnownAfterUse(t: Trial, last: nat, use: Use)
    requires Known(t, last) && last <= use.now
    ensures Known(Used(t, use), use.now)
  {
    hide Known, Used;
    match use
    case Ask(now) => KnownAfterAsk(t, last, now);
    case EndLease(now) => KnownAfterEnd(t, last, now);
  }

  lemma FrontIsForward(uses: seq<Use>)
    requires uses != [] && Forward(uses)
    ensures Forward(uses[..|uses| - 1]) && LastOf(uses[..|uses| - 1]) <= LastOf(uses)
  {
  }

  lemma {:induction false} TryIsKnown(uses: seq<Use>)
    requires Forward(uses)
    ensures Known(Try(uses), LastOf(uses))
    decreases |uses|
  {
    if uses != [] {
      hide Used, Known, Forward;
      var front := uses[..|uses| - 1];
      FrontIsForward(uses);
      TryIsKnown(front);
      KnownAfterUse(Try(front), LastOf(front), uses[|uses| - 1]);
    }
  }

  /** Attempts six apart with no lease end between them. */
  predicate Spaced(attempts: seq<Attempt>) {
    forall i :: 0 <= i < |attempts| - BREAKER_THRESHOLD && attempts[i].epoch == attempts[i + BREAKER_THRESHOLD].epoch ==>
      attempts[i].now + BREAKER_COOLDOWN <= attempts[i + BREAKER_THRESHOLD].now
  }

  lemma SpacedAfterAsk(t: Trial, last: nat, now: nat)
    requires Known(t, last) && last <= now && Spaced(t.attempts)
    requires Gate(t.breaker, now).1.None?
    ensures Spaced(t.attempts + [Attempt(now, t.epoch)])
  {
    hide Gate, Remembers;
    var s, n := Since(t.attempts, t.epoch), |t.attempts|;
    GateRemembers(t.breaker, s, last, now);
    SinceIsSuffix(t.attempts, t.epoch);
    var more := t.attempts + [Attempt(now, t.epoch)];
    forall i | 0 <= i < |more| - BREAKER_THRESHOLD && more[i].epoch == more[i + BREAKER_THRESHOLD].epoch
      ensures more[i].now + BREAKER_COOLDOWN <= more[i + BREAKER_THRESHOLD].now
    {
      if i == n - BREAKER_THRESHOLD {
        assert s[i - (n - |s|)] == t.attempts[i].now;
      }
    }
  }

  lemma {:induction false} TryIsSpaced(uses: seq<Use>)
    requires Forward(uses)
    ensures Spaced(Try(uses).attempts)
    decreases |uses|
  {
    if uses != [] {
      hide Gate, Known, Forward, Spaced;
      var front := uses[..|uses| - 1];
      FrontIsForward(uses);
      TryIsSpaced(front);
      TryIsKnown(front);
      if uses[|uses| - 1].Ask? && Gate(Try(front).breaker, LastOf(uses)).1.None? {
        SpacedAfterAsk(Try(front), LastOf(front), LastOf(uses));
      }
    } else {
      assert Spaced([]);
    }
  }

  /** Six permitted attempts apart means a cooldown apart, in every run, unless a
      lease end dropped the breaker between them. */
  lemma AttemptsAreSpaced(uses: seq<Use>, i: nat)
    requires Forward(uses) && i + BREAKER_THRESHOLD < |Try(uses).attempts|
    ensures var p := Try(uses).attempts;
            p[i].epoch == p[i + BREAKER_THRESHOLD].epoch ==> p[i].now + BREAKER_COOLDOWN <= p[i + BREAKER_THRESHOLD].now
  {
    TryIsSpaced(uses);
  }

  lemma {:induction false} SpacedFar(p: seq<Attempt>, i: nat, q: nat)
    requires Ordered(p) && Spaced(p) && i + BREAKER_THRESHOLD * q < |p| && p[i].epoch == p[i + BREAKER_THRESHOLD * q].epoch
    ensures p[i].now + BREAKER_COOLDOWN * q <= p[i + BREAKER_THRESHOLD * q].now
    decreases q
  {
    if q > 0 {
      var j := i + BREAKER_THRESHOLD * (q - 1);
      assert p[i].epoch <= p[j].epoch <= p[j + BREAKER_THRESHOLD].epoch;
      SpacedFar(p, i, q - 1);
    }
  }

  lemma BoundedWithoutEnd(p: seq<Attempt>, i: nat, m: nat)
    requires Ordered(p) && Spaced(p) && 0 < m && i + m <= |p| && p[i].epoch == p[i + m - 1].epoch
    ensures p[i].now <= p[i + m - 1].now
    ensures m <= BREAKER_THRESHOLD * ((p[i + m - 1].now - p[i].now) / BREAKER_COOLDOWN + 1)
  {
    var span := p[i + m - 1].now - p[i].now;
    var q := span / BREAKER_COOLDOWN + 1;
    if m > BREAKER_THRESHOLD * q {
      var j := i + BREAKER_THRESHOLD * q;
      assert p[i].epoch <= p[j].epoch <= p[i + m - 1].epoch;
      SpacedFar(p, i, q);
    }
  }

  /** The first attempt after the epoch of attempt `i`. */
  lemma {:induction false} EpochChange(p: seq<Attempt>, i: nat, k: nat) returns (j: nat)
    requires Ordered(p) && i < k < |p| && p[i].epoch < p[k].epoch
    ensures i < j <= k && p[j - 1].epoch == p[i].epoch < p[j].epoch
    decreases k
  {
    if p[k - 1].epoch == p[i].epoch {
      j := k;
    } else {
      j := EpochChange(p, i, k - 1);
    }
  }

  lemma SpansAdd(a: nat, b: nat, c: nat)
    requires a + b <= c
    ensures a / BREAKER_COOLDOWN + b / BREAKER_COOLDOWN <= c / BREAKER_COOLDOWN
  {
  }

  lemma {:induction false} BoundedWithEnds(p: seq<Attempt>, i: nat, m: nat)
    requires Ordered(p) && Spaced(p) && 0 < m && i + m <= |p|
    ensures p[i].now <= p[i + m - 1].now && p[i].epoch <= p[i + m - 1].epoch
    ensures m <= BREAKER_THRESHOLD * ((p[i + m - 1].now - p[i].now) / BREAKER_COOLDOWN + 1 + (p[i + m - 1].epoch - p[i].epoch))
    decreases m
  {
    var k := i + m - 1;
    if p[i].epoch == p[k].epoch {
      BoundedWithoutEnd(p, i, m);
    } else {
      var j := EpochChange(p, i, k);
      BoundedWithoutEnd(p, i, j - i);
      BoundedWithEnds(p, j, m - (j - i));
      SpansAdd(p[j - 1].now - p[i].now, p[k].now - p[j].now, p[k].now - p[i].now);
    }
  }

  /** However often the breaker is asked: in any span of time, at most six
      attempts per started cooldown, and six more for every lease end in it.
      Without a lease end, that is the breaker's own bound. */
  lemma AttemptsAreBounded(uses: seq<Use>, i: nat, m: nat, span: nat)
    requires Forward(uses) && 0 < m && i + m <= |Try(uses).attempts|
    requires Try(uses).attempts[i + m - 1].now - Try(uses).attempts[i].now <= span
    ensures var p := Try(uses).attempts;
            && p[i].epoch <= p[i + m - 1].epoch
            && m <= BREAKER_THRESHOLD * (span / BREAKER_COOLDOWN + 1 + (p[i + m - 1].epoch - p[i].epoch))
  {
    hide Try, Forward, Ordered, Spaced;
    var p := Try(uses).attempts;
    TryIsOrdered(uses);
    TryIsSpaced(uses);
    BoundedWithEnds(p, i, m);
    LongerSpan(p[i + m - 1].now - p[i].now, span, p[i + m - 1].epoch - p[i].epoch, m);
  }

  lemma TryIsOrdered(uses: seq<Use>)
    requires Forward(uses)
    ensures Ordered(Try(uses).attempts)
  {
    hide Try, Forward;
    TryIsKnown(uses);
  }

  lemma LongerSpan(span: nat, longer: nat, ends: nat, m: nat)
    requires span <= longer && m <= BREAKER_THRESHOLD * (span / BREAKER_COOLDOWN + 1 + ends)
    ensures m <= BREAKER_THRESHOLD * (longer / BREAKER_COOLDOWN + 1 + ends)
  {
    SpansAdd(span, 0, longer);
  }

  /** In every run, the next attempt is permitted exactly if the breaker is not
      open and fewer than six of the attempts it remembers lie within the window;
      otherwise the answer is the time until it may be permitted again. */
  lemma PermittedIff(uses: seq<Use>, now: nat)
    requires Forward(uses) && LastOf(uses) <= now
    ensures var b := Try(uses).breaker;
            && Ascending(b.attempts)
            && (Gate(b, now).1.None? <==>
                  if b.openUntil.Some? then b.openUntil.value <= now else Within(b.attempts, now) < BREAKER_THRESHOLD)
            && (forall wait: nat :: Gate(b, now).1 == Some(wait) ==> 0 < wait && Gate(b, now).0.openUntil == Some(now + wait))
            && (b.openUntil.None? ==> Gate(b, now).1 in {None, Some(BREAKER_COOLDOWN)})
  {
    TryIsKnown(uses);
    RemembersAscending(Try(uses).breaker, Since(Try(uses).attempts, Try(uses).epoch), LastOf(uses), Try(uses).attempts, Try(uses).epoch);
    RecentCounts(Try(uses).breaker.attempts, now);
    assert Recent([], now) == [];
  }

  lemma RemembersAscending(b: Breaker, permitted: seq<nat>, now: nat, attempts: seq<Attempt>, epoch: nat)
    requires Remembers(b, permitted, now) && permitted == Since(attempts, epoch) && Ordered(attempts)
    requires forall i :: 0 <= i < |attempts| ==> attempts[i].epoch <= epoch
    ensures Ascending(b.attempts)
  {
    SinceIsSuffix(attempts, epoch);
    var k := |permitted| - |b.attempts|;
    forall i, j | 0 <= i < j < |b.attempts| ensures b.attempts[i] <= b.attempts[j] {
      assert b.attempts[i] == permitted[k + i] && b.attempts[j] == permitted[k + j];
    }
  }

  function Asks(n: nat, now: nat): seq<Use> { seq(n, _ => Ask(now)) }

  /** The end of a lease forgets the attempts: eight of them are permitted at one
      instant when a lease ends among them. */
  lemma EndForgetsAttempts(now: nat)
    ensures var uses := Asks(BREAKER_THRESHOLD, now) + [EndLease(now)] + Asks(2, now);
            Forward(uses) && |Try(uses).attempts| == 8 && forall i :: 0 <= i < 8 ==> Try(uses).attempts[i].now == now
  {
    SixAtOnce(now, BREAKER_THRESHOLD);
    var six := Asks(BREAKER_THRESHOLD, now);
    var ended := six + [EndLease(now)];
    assert ended[..BREAKER_THRESHOLD] == six;
    assert Try(ended) == Trial(Breaker([], None), 1, Try(six).attempts);
    var one := ended + [Ask(now)];
    assert one[..|ended|] == ended;
    assert Try(one) == Trial(Breaker([now], None), 1, Try(six).attempts + [Attempt(now, 1)]);
    var two := one + [Ask(now)];
    assert two[..|one|] == one;
    assert Recent([now], now) == [now] && [now] + [now] == [now, now];
    assert Gate(Breaker([now], None), now) == (Breaker([now, now], None), None);
    assert Try(two).attempts == Try(six).attempts + [Attempt(now, 1)] + [Attempt(now, 1)];
    assert two == Asks(BREAKER_THRESHOLD, now) + [EndLease(now)] + Asks(2, now);
  }

  lemma {:induction false} SixAtOnce(now: nat, n: nat)
    requires n <= BREAKER_THRESHOLD
    ensures var t := Try(Asks(n, now));
            && t.breaker == Breaker(seq(n, _ => now), None)
            && t.epoch == 0
            && |t.attempts| == n
            && forall i :: 0 <= i < n ==> t.attempts[i].now == now
  {
    if n > 0 {
      SixAtOnce(now, n - 1);
      assert Asks(n, now)[..n - 1] == Asks(n - 1, now);
      assert seq(n - 1, _ => now) + [now] == seq(n, _ => now);
    }
  }

  /** The schedule and the breakers of all resources of one manager. */
  class Reconciler<K(==)> {
    var pending: map<K, Entry>
    var breaker: map<K, Breaker>

    constructor ()
      ensures pending == map[] && breaker == map[]
    {
      pending, breaker := map[], map[];
    }

    function Waiting(k: K): Option<Entry>
      reads this
    {
      if k in pending then Some(pending[k]) else None
    }

    function BreakerOf(k: K): Breaker
      reads this
    {
      if k in breaker then breaker[k] else Breaker([], None)
    }

    /** An event of resource `k` arrives. */
    method TouchAt(k: K, now: nat)
      modifies this`pending
      ensures pending == old(pending)[k := Touched(old(Waiting(k)), now)]
    {
      if k in pending {
        var p := pending[k];
        pending := pending[k := p.(generation := Increment(p.generation, MAX_U64))];
      } else {
        pending := pending[k := Entry(now, 0, 0)];
      }
    }

    method DeferAt(k: K, delay: nat, failed: bool, now: nat)
      modifies this`pending
      ensures pending == old(pending)[k := Deferred(old(Waiting(k)), delay, failed, now)]
    {
      var entry := if k in pending then pending[k] else Entry(now + delay, 0, 0);
      var wait := delay;
      if failed {
        entry := entry.(errors := Increment(entry.errors, MAX_U32));
        wait := Backoff(delay, entry.errors);
      } else {
        entry := entry.(errors := 0);
      }
      pending := pending[k := entry.(readyAt := Max(entry.readyAt, now + wait))];
    }

    method CompleteUnlessTouched(k: K, generation: nat, now: nat)
      modifies this`pending
      ensures var done := Completed(old(Waiting(k)), generation, now);
              pending == if done.Some? then old(pending)[k := done.value] else old(pending) - {k}
    {
      if k in pending && pending[k].generation != generation {
        pending := pending[k := pending[k].(readyAt := now, errors := 0)];
      } else {
        pending := pending - {k};
      }
    }

    method Remove(k: K)
      modifies this
      ensures pending == old(pending) - {k} && breaker == old(breaker) - {k}
    {
      pending, breaker := pending - {k}, breaker - {k};
    }

    /** Asks the breaker for one rebase attempt. */
    method BreakerGate(k: K, now: nat) returns (wait: Option<nat>)
      modifies this`breaker
      ensures breaker == old(breaker)[k := Gate(old(BreakerOf(k)), now).0]
      ensures wait == Gate(old(BreakerOf(k)), now).1
    {
      var state := BreakerOf(k);
      if state.openUntil.Some? {
        if now < state.openUntil.value {
          breaker := breaker[k := state];
          return Some(state.openUntil.value - now);
        }
        state := Breaker([], None);
      }
      var attempts := state.attempts;
      while attempts != [] && attempts[0] + BREAKER_WINDOW < now
        invariant Recent(attempts, now) == Recent(state.attempts, now)
        decreases |attempts|
      {
        attempts := attempts[1..];
      }
      if |attempts| >= BREAKER_THRESHOLD {
        breaker := breaker[k := Breaker([], Some(now + BREAKER_COOLDOWN))];
        return Some(BREAKER_COOLDOWN);
      }
      breaker := breaker[k := Breaker(attempts + [now], None)];
      return None;
    }
  }
}
