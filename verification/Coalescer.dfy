/** The event coalescer: any number of sender threads replace the pending event
    of a resource and wake one worker, which delivers what is pending at the end
    of each window. */
module Coalescer {
  import opened Dns

  /** Where a sender thread is in the callback. */
  datatype Sender = Idle | Checked(resource: nat) | Inserted

  /** Where the worker is. `last` marks the flush after the channel closed. A
      batch maps resources to the number of the event to deliver. */
  datatype Worker =
    | Waiting
    | Woken
    | Window
    | WindowWoken
    | Taking(last: bool)
    | Delivering(batch: map<nat, nat>, last: bool)
    | Calling(resource: nat, event: nat, batch: map<nat, nat>, last: bool)
    | Exited

  /** `inserted` are the resources of all events, in the order of insertion: an
      event is known by its number there. `late` counts the deliveries that
      happened after the stop flag was set. */
  datatype State = State(
    pending: map<nat, nat>,
    token: bool,
    stop: bool,
    stopping: bool,
    closed: bool,
    senders: map<nat, Sender>,
    worker: Worker,
    inserted: seq<nat>,
    delivered: seq<(nat, nat)>,
    late: nat)

  datatype Act =
    | Check(sender: nat, resource: nat)
    | Insert(sender: nat)
    | Wake(sender: nat)
    | Stop
    | StopWake
    | Close
    | Receive
    | CheckFlag
    | Timeout
    | Take
    | Pick(resource: nat)
    | Finish
    | Call

  function SenderOf(s: State, t: nat): Sender { if t in s.senders then s.senders[t] else Idle }

  predicate AllIdle(s: State) { forall t :: t in s.senders ==> s.senders[t].Idle? }

  function Ended(last: bool): Worker { if last then Exited else Waiting }

  predicate Enabled(s: State, act: Act) {
    match act
    case Check(t, _) => SenderOf(s, t).Idle? && !s.closed
    case Insert(t) => SenderOf(s, t).Checked?
    case Wake(t) => SenderOf(s, t).Inserted?
    case Stop => true
    case StopWake => s.stopping
    case Close => AllIdle(s) && !s.stopping
    case Receive => (s.worker.Waiting? || s.worker.Window?) && (s.token || s.closed)
    case CheckFlag => s.worker.Woken? || s.worker.WindowWoken?
    case Timeout => s.worker.Window?
    case Take => s.worker.Taking?
    case Pick(r) => s.worker.Delivering? && r in s.worker.batch && !s.stop
    case Finish => s.worker.Delivering? && (s.worker.batch == map[] || s.stop)
    case Call => s.worker.Calling?
  }

  function Step(s: State, act: Act): State
    requires Enabled(s, act)
  {
    match act
    case Check(t, r) =>
      if s.stop then s else s.(senders := s.senders[t := Checked(r)])
    case Insert(t) =>
      s.(senders := s.senders[t := Inserted],
         pending := s.pending[SenderOf(s, t).resource := |s.inserted|],
         inserted := s.inserted + [SenderOf(s, t).resource])
    case Wake(t) => s.(senders := s.senders[t := Idle], token := true)
    case Stop => s.(stop := true, stopping := true)
    case StopWake => s.(token := true, stopping := false)
    case Close => s.(closed := true)
    case Receive =>
      if s.token then s.(token := false, worker := if s.worker.Waiting? then Woken else WindowWoken)
      else s.(worker := if s.worker.Waiting? then Exited else Taking(true))
    case CheckFlag => s.(worker := if s.stop then Exited else Window)
    case Timeout => s.(worker := Taking(false))
    case Take => s.(worker := Delivering(s.pending, s.worker.last), pending := map[])
    case Pick(r) => s.(worker := Calling(r, s.worker.batch[r], s.worker.batch - {r}, s.worker.last))
    case Finish => s.(worker := Ended(s.worker.last))
    case Call =>
      s.(worker := Delivering(s.worker.batch, s.worker.last),
         delivered := s.delivered + [(s.worker.resource, s.worker.event)],
         late := s.late + if s.stop then 1 else 0)
  }

  const Fresh := State(map[], false, false, false, false, map[], Waiting, [], [], 0)

  // ----- what is known in every reachable state

  /** A sender that has inserted an event and not yet woken the worker. */
  predicate SomeoneWakes(s: State) { exists t :: t in s.senders && s.senders[t].Inserted? }

  /** The worker is going to take what is pending before it waits again. */
  predicate WillFlush(w: Worker) { w.Woken? || w.Window? || w.WindowWoken? || w.Taking? }

  predicate NoLostWakeup(s: State) {
    !s.stop && s.pending != map[] ==> s.token || SomeoneWakes(s) || WillFlush(s.worker)
  }

  predicate StopIsSeen(s: State) {
    s.stop && !s.stopping ==> s.token || s.worker.Woken? || s.worker.WindowWoken? || s.worker.Exited?
  }

  predicate Last(w: Worker) {
    (w.Delivering? || w.Calling?) && w.last
  }

  predicate Closing(s: State) {
    && (s.closed ==> AllIdle(s))
    && (s.worker.Taking? && s.worker.last ==> s.closed)
    && (Last(s.worker) || (s.worker.Exited? && !s.stop) ==> s.closed && (s.pending == map[] || s.stop))
  }

  /** At most one delivery follows the stop flag. */
  predicate StopsSoon(s: State) {
    && (!s.stop ==> s.late == 0 && !s.stopping)
    && s.late + (if s.stop && s.worker.Calling? then 1 else 0) <= 1
  }

  function Batch(w: Worker): map<nat, nat> {
    match w
    case Delivering(batch, _) => batch
    case Calling(r, event, batch, _) => batch[r := event]
    case _ => map[]
  }

  function LastInserted(inserted: seq<nat>, r: nat): Option<nat> {
    if inserted == [] then None
    else if inserted[|inserted| - 1] == r then Some(|inserted| - 1)
    else LastInserted(inserted[..|inserted| - 1], r)
  }

  function LastDelivered(delivered: seq<(nat, nat)>, r: nat): Option<nat> {
    if delivered == [] then None
    else if delivered[|delivered| - 1].0 == r then Some(delivered[|delivered| - 1].1)
    else LastDelivered(delivered[..|delivered| - 1], r)
  }

  /** The newest event of `r` that was delivered or is on its way. */
  function Newest(s: State, r: nat): Option<nat> {
    if r in s.pending then Some(s.pending[r])
    else if r in Batch(s.worker) then Some(Batch(s.worker)[r])
    else LastDelivered(s.delivered, r)
  }

  /** Nothing newer than what was inserted last is ever forgotten. */
  ghost predicate LastWins(s: State) {
    !s.stop ==> forall r :: Newest(s, r) == LastInserted(s.inserted, r)
  }

  /** `r`'s events are delivered in the order of insertion, each at most once. */
  predicate InOrderFor(s: State, r: nat) {
    && (r in s.pending ==> s.pending[r] < |s.inserted| && s.inserted[s.pending[r]] == r)
    && (r in Batch(s.worker) ==>
          && Batch(s.worker)[r] < |s.inserted|
          && s.inserted[Batch(s.worker)[r]] == r
          && (r in s.pending ==> Batch(s.worker)[r] < s.pending[r]))
    && (forall i :: 0 <= i < |s.delivered| && s.delivered[i].0 == r ==>
          && s.delivered[i].1 < |s.inserted|
          && s.inserted[s.delivered[i].1] == r
          && (r in s.pending ==> s.delivered[i].1 < s.pending[r])
          && (r in Batch(s.worker) ==> s.delivered[i].1 < Batch(s.worker)[r]))
    && (forall i, j :: 0 <= i < j < |s.delivered| && s.delivered[i].0 == r && s.delivered[j].0 == r ==>
          s.delivered[i].1 < s.delivered[j].1)
  }

  ghost predicate InOrder(s: State) { forall r :: InOrderFor(s, r) }

  ghost predicate Inv(s: State) {
    && NoLostWakeup(s)
    && StopIsSeen(s)
    && Closing(s)
    && StopsSoon(s)
    && LastWins(s)
    && InOrder(s)
    && (s.worker.Calling? ==> s.worker.resource !in s.worker.batch)
  }

  lemma FreshOk()
    ensures Inv(Fresh)
  {
  }

  lemma StepWakes(s: State, act: Act)
    requires Inv(s) && Enabled(s, act)
    ensures NoLostWakeup(Step(s, act)) && StopIsSeen(Step(s, act)) && Closing(Step(s, act)) && StopsSoon(Step(s, act))
  {
    hide LastWins, InOrder;
    var r := Step(s, act);
    match act
    case Check(t, _) =>
      if SomeoneWakes(s) {
        var u :| u in s.senders && s.senders[u].Inserted?;
        assert r.senders[u].Inserted?;
      }
    case Insert(t) => assert r.senders[t].Inserted?;
    case _ =>
  }

  /** An act that neither adds, moves nor delivers an event. */
  lemma OtherActs(s: State, act: Act)
    requires Enabled(s, act) && !act.Insert? && !act.Take? && !act.Finish? && !act.Call?
    ensures var s' := Step(s, act);
            s'.pending == s.pending && s'.inserted == s.inserted && s'.delivered == s.delivered && Batch(s'.worker) == Batch(s.worker)
  {
    if act.Pick? {
      var x := act.resource;
      assert (s.worker.batch - {x})[x := s.worker.batch[x]] == s.worker.batch;
    }
  }

  lemma InsertMoves(s: State, t: nat)
    requires Enabled(s, Insert(t))
    ensures var s', x := Step(s, Insert(t)), SenderOf(s, t).resource;
            && s'.pending == s.pending[x := |s.inserted|]
            && s'.inserted == s.inserted + [x]
            && s'.delivered == s.delivered
            && s'.worker == s.worker
  {
  }

  lemma TakeMoves(s: State)
    requires Enabled(s, Take)
    ensures var s' := Step(s, Take);
            && s'.pending == map[] && Batch(s'.worker) == s.pending && Batch(s.worker) == map[]
            && s'.inserted == s.inserted && s'.delivered == s.delivered
  {
  }

  lemma FinishMoves(s: State)
    requires Enabled(s, Finish)
    ensures var s' := Step(s, Finish);
            && Batch(s'.worker) == map[] && (!s'.stop ==> Batch(s.worker) == map[])
            && s'.pending == s.pending && s'.inserted == s.inserted && s'.delivered == s.delivered
  {
  }

  lemma CallMoves(s: State)
    requires s.worker.Calling? && s.worker.resource !in s.worker.batch
    ensures var s' := Step(s, Call);
            && s'.pending == s.pending && s'.inserted == s.inserted
            && s'.delivered == s.delivered + [(s.worker.resource, s.worker.event)]
            && Batch(s.worker) == Batch(s'.worker)[s.worker.resource := s.worker.event]
            && s.worker.resource !in Batch(s'.worker)
  {
  }

  lemma StepKeepsNewest(s: State, act: Act, r: nat)
    requires Enabled(s, act) && !Step(s, act).stop && Newest(s, r) == LastInserted(s.inserted, r)
    requires s.worker.Calling? ==> s.worker.resource !in s.worker.batch
    ensures Newest(Step(s, act), r) == LastInserted(Step(s, act).inserted, r)
  {
    hide Step, Enabled, LastInserted, LastDelivered, Batch;
    if act.Insert? {
      Insertable(s, act.sender);
      InsertMoves(s, act.sender);
      LastAfterInsert(s.inserted, SenderOf(s, act.sender).resource, r);
    } else if act.Take? {
      TakeMoves(s);
    } else if act.Finish? {
      FinishMoves(s);
    } else if act.Call? {
      Callable(s);
      CallMoves(s);
      LastAfterCall(s.delivered, s.worker.resource, s.worker.event, r);
    } else {
      OtherActs(s, act);
    }
  }

  lemma Callable(s: State)
    requires Enabled(s, Call)
    ensures s.worker.Calling?
  {
  }

  lemma Insertable(s: State, t: nat)
    requires Enabled(s, Insert(t))
    ensures SenderOf(s, t).Checked?
  {
  }

  lemma LastAfterInsert(inserted: seq<nat>, x: nat, r: nat)
    ensures LastInserted(inserted + [x], r) == if x == r then Some(|inserted|) else LastInserted(inserted, r)
  {
    assert (inserted + [x])[..|inserted|] == inserted;
  }

  lemma LastAfterCall(delivered: seq<(nat, nat)>, x: nat, event: nat, r: nat)
    ensures LastDelivered(delivered + [(x, event)], r) == if x == r then Some(event) else LastDelivered(delivered, r)
  {
    assert (delivered + [(x, event)])[..|delivered|] == delivered;
  }

  lemma StepKeepsOrder(s: State, act: Act, r: nat)
    requires Enabled(s, act) && InOrderFor(s, r) && (s.worker.Calling? ==> s.worker.resource !in s.worker.batch)
    ensures InOrderFor(Step(s, act), r)
  {
    hide Step, Enabled, InOrderFor, Batch;
    if act.Insert? {
      Insertable(s, act.sender);
      InsertMoves(s, act.sender);
      InsertKeepsOrder(s, Step(s, act), SenderOf(s, act.sender).resource, r);
    } else if act.Call? {
      Callable(s);
      CallMoves(s);
      CallKeepsOrder(s, Step(s, act), s.worker.resource, s.worker.event, r);
    } else {
      if act.Take? {
        TakeMoves(s);
      } else if act.Finish? {
        FinishMoves(s);
      } else {
        OtherActs(s, act);
      }
      FewerKeepOrder(s, Step(s, act), r);
    }
  }

  lemma InsertKeepsOrder(s: State, s': State, x: nat, r: nat)
    requires InOrderFor(s, r)
    requires s'.pending == s.pending[x := |s.inserted|] && s'.inserted == s.inserted + [x]
    requires s'.delivered == s.delivered && s'.worker == s.worker
    ensures InOrderFor(s', r)
  {
    hide Batch;
    assert forall i :: 0 <= i < |s.inserted| ==> s'.inserted[i] == s.inserted[i];
  }

  /** Nothing inserted or delivered, and at most one of the events of `r` is
      still on its way. */
  lemma FewerKeepOrder(s: State, s': State, r: nat)
    requires InOrderFor(s, r) && s'.inserted == s.inserted && s'.delivered == s.delivered
    requires r in s'.pending ==> r in s.pending && s'.pending[r] == s.pending[r]
    requires r in Batch(s'.worker) ==>
               || (r in Batch(s.worker) && Batch(s'.worker)[r] == Batch(s.worker)[r])
               || (r in s.pending && r !in s'.pending && Batch(s'.worker)[r] == s.pending[r])
    ensures InOrderFor(s', r)
  {
    hide Batch;
  }

  lemma CallKeepsOrder(s: State, s': State, x: nat, event: nat, r: nat)
    requires InOrderFor(s, r)
    requires s'.pending == s.pending && s'.inserted == s.inserted && s'.delivered == s.delivered + [(x, event)]
    requires Batch(s.worker) == Batch(s'.worker)[x := event] && x !in Batch(s'.worker)
    ensures InOrderFor(s', r)
  {
    hide Batch;
    assert x in Batch(s.worker) && Batch(s.worker)[x] == event;
    assert forall i :: 0 <= i < |s.delivered| ==> s'.delivered[i] == s.delivered[i];
  }

  lemma StepOk(s: State, act: Act)
    requires Inv(s) && Enabled(s, act)
    ensures Inv(Step(s, act))
  {
    StepWakes(s, act);
    if !Step(s, act).stop {
      forall r ensures Newest(Step(s, act), r) == LastInserted(Step(s, act).inserted, r) {
        assert Newest(s, r) == LastInserted(s.inserted, r);
        StepKeepsNewest(s, act, r);
      }
    }
    forall r ensures InOrderFor(Step(s, act), r) {
      assert InOrderFor(s, r);
      StepKeepsOrder(s, act, r);
    }
  }

  // ----- runs

  predicate CanRun(s: State, acts: seq<Act>)
    decreases |acts|
  {
    acts != [] ==> Enabled(s, acts[0]) && CanRun(Step(s, acts[0]), acts[1..])
  }

  function Run(s: State, acts: seq<Act>): State
    requires CanRun(s, acts)
    decreases |acts|
  {
    if acts == [] then s else Run(Step(s, acts[0]), acts[1..])
  }

  lemma {:induction false} RunOk(s: State, acts: seq<Act>)
    requires Inv(s) && CanRun(s, acts)
    ensures Inv(Run(s, acts))
    decreases |acts|
  {
    if acts != [] {
      StepOk(s, acts[0]);
      RunOk(Step(s, acts[0]), acts[1..]);
    }
  }

  /** Nothing but a new event can happen any more. */
  predicate Quiescent(s: State) {
    AllIdle(s) && !s.token && (s.worker.Waiting? || s.worker.Exited?)
  }

  /** In every run and until the coalescer is stopped: events that were inserted
      and not delivered have a wakeup on its way, and once nothing is on its way
      the last delivered event of every resource is the last inserted one. */
  lemma NothingIsLost(acts: seq<Act>, r: nat)
    requires CanRun(Fresh, acts) && !Run(Fresh, acts).stop
    ensures var s := Run(Fresh, acts);
            && (s.pending != map[] ==> s.token || SomeoneWakes(s) || WillFlush(s.worker))
            && (Quiescent(s) ==> LastDelivered(s.delivered, r) == LastInserted(s.inserted, r))
  {
    FreshOk();
    RunOk(Fresh, acts);
    var s := Run(Fresh, acts);
    assert Newest(s, r) == LastInserted(s.inserted, r);
  }

  /** In every run, even after a stop: every delivered event was inserted, and
      events of one resource arrive in order and at most once; at most one event
      is delivered after the stop, and a stopped worker is not left waiting. */
  lemma DeliveriesAreSound(acts: seq<Act>)
    requires CanRun(Fresh, acts)
    ensures var s := Run(Fresh, acts);
            && (forall i :: 0 <= i < |s.delivered| ==>
                  s.delivered[i].1 < |s.inserted| && s.inserted[s.delivered[i].1] == s.delivered[i].0)
            && (forall i, j :: 0 <= i < j < |s.delivered| && s.delivered[i].0 == s.delivered[j].0 ==>
                  s.delivered[i].1 < s.delivered[j].1)
            && s.late <= 1
            && (s.stop && !s.stopping && s.worker.Waiting? ==> s.token)
  {
    FreshOk();
    RunOk(Fresh, acts);
    var s := Run(Fresh, acts);
    assert forall i :: 0 <= i < |s.delivered| ==> InOrderFor(s, s.delivered[i].0);
  }

  // ----- everything is delivered in the end

  /** What still happens when no new event comes in: wakeups that are due, and
      the worker. */
  predicate Settling(act: Act) {
    act.Wake? || act.StopWake? || act.Receive? || act.CheckFlag? || act.Timeout? || act.Take? || act.Pick? || act.Finish? || act.Call?
  }

  /** No sender is about to insert an event. */
  predicate NoneComing(s: State) { forall t :: t in s.senders ==> !s.senders[t].Checked? }

  function Wakers(s: State): set<nat> { set t | t in s.senders && s.senders[t].Inserted? }

  /** How far the worker is from waiting again. */
  function Distance(w: Worker): nat {
    match w
    case Exited => 0
    case Waiting => 1
    case Delivering(batch, _) => 2 + 2 * |batch|
    case Calling(_, _, batch, _) => 3 + 2 * |batch|
    case Taking(_) => 3
    case Window => 4
    case Woken => 5
    case WindowWoken => 5
  }

  /** A bound on the acts that are left when no new event comes in. */
  function Left(s: State): nat {
    6 * |Wakers(s)| + (if s.stopping then 6 else 0) + (if s.token then 5 else 0) + 2 * |s.pending| + Distance(s.worker)
  }

  lemma SettlingLeavesLess(s: State, act: Act)
    requires Enabled(s, act) && Settling(act) && NoneComing(s)
    ensures NoneComing(Step(s, act)) && Left(Step(s, act)) < Left(s)
    ensures Step(s, act).inserted == s.inserted && Step(s, act).stop == s.stop
  {
    if act.Wake? {
      WakeLeavesLess(s, act.sender);
    } else if act.Pick? {
      PickLeavesLess(s, act.resource);
    } else {
      assert Wakers(Step(s, act)) == Wakers(s);
    }
  }

  lemma WakeLeavesLess(s: State, t: nat)
    requires Enabled(s, Wake(t)) && NoneComing(s)
    ensures NoneComing(Step(s, Wake(t))) && Left(Step(s, Wake(t))) < Left(s)
  {
    hide Distance;
    assert Wakers(Step(s, Wake(t))) == Wakers(s) - {t};
    assert t in Wakers(s);
  }

  lemma PickLeavesLess(s: State, x: nat)
    requires Enabled(s, Pick(x))
    ensures Left(Step(s, Pick(x))) < Left(s)
  {
    var batch := s.worker.batch;
    assert (batch - {x}).Keys == batch.Keys - {x};
    assert |batch.Keys - {x}| == |batch.Keys| - 1;
    assert Wakers(Step(s, Pick(x))) == Wakers(s);
  }

  /** No wakeup is due, and the worker waits for one or is gone. */
  predicate AtRest(s: State) {
    AllIdle(s) && !s.stopping && (s.worker.Exited? || (s.worker.Waiting? && !s.token && !s.closed))
  }

  /** As long as there is something left to do, some act can do it. */
  lemma SomethingSettles(s: State) returns (act: Act)
    requires NoneComing(s) && !AtRest(s)
    ensures Settling(act) && Enabled(s, act)
  {
    if t :| t in s.senders && !s.senders[t].Idle? {
      act := Wake(t);
    } else if s.stopping {
      act := StopWake;
    } else {
      act := WorkersNext(s);
    }
  }

  lemma WorkersNext(s: State) returns (act: Act)
    requires s.worker.Waiting? ==> s.token || s.closed
    requires !s.worker.Exited?
    ensures Settling(act) && Enabled(s, act)
  {
    match s.worker
    case Waiting => act := Receive;
    case Woken => act := CheckFlag;
    case Window => act := Timeout;
    case WindowWoken => act := CheckFlag;
    case Taking(_) => act := Take;
    case Delivering(batch, _) =>
      if batch == map[] || s.stop {
        act := Finish;
      } else {
        var r :| r in batch;
        act := Pick(r);
      }
    case Calling(_, _, _, _) => act := Call;
  }

  predicate AllSettling(acts: seq<Act>) { forall i :: 0 <= i < |acts| ==> Settling(acts[i]) }

  /** In whatever order things happen, they come to an end when no new event
      comes in. */
  lemma {:induction false} SettlingEnds(s: State, acts: seq<Act>)
    requires NoneComing(s) && CanRun(s, acts) && AllSettling(acts)
    ensures |acts| <= Left(s)
    ensures var r := Run(s, acts); NoneComing(r) && r.inserted == s.inserted && r.stop == s.stop
    decreases |acts|
  {
    if acts != [] {
      SettlingLeavesLess(s, acts[0]);
      SettlingEnds(Step(s, acts[0]), acts[1..]);
    }
  }

  /** Nothing is left to do. */
  ghost predicate Settled(s: State) { forall act :: Settling(act) ==> !Enabled(s, act) }

  /** From every reachable state, once no new event comes in: however the wakeups
      and the worker are scheduled, after a bounded number of acts nothing is left to
      do, and then every resource's last event was delivered, or, after a stop, the
      worker is gone. */
  lemma EverythingIsDelivered(acts: seq<Act>, rest: seq<Act>)
    requires CanRun(Fresh, acts) && NoneComing(Run(Fresh, acts))
    requires CanRun(Run(Fresh, acts), rest) && AllSettling(rest)
    ensures |rest| <= Left(Run(Fresh, acts))
    ensures var r := Run(Run(Fresh, acts), rest);
            Settled(r) ==>
              && (!r.stop ==> forall x :: LastDelivered(r.delivered, x) == LastInserted(Run(Fresh, acts).inserted, x))
              && (r.stop || r.closed ==> r.worker.Exited?)
  {
    FreshOk();
    RunOk(Fresh, acts);
    var s := Run(Fresh, acts);
    SettlingEnds(s, rest);
    RunOk(s, rest);
    var r := Run(s, rest);
    if Settled(r) {
      if !AtRest(r) {
        var act := SomethingSettles(r);
        assert false;
      }
      forall x | !r.stop ensures LastDelivered(r.delivered, x) == LastInserted(r.inserted, x) {
        assert Newest(r, x) == LastInserted(r.inserted, x);
        NothingPending(r);
      }
    }
  }

  lemma NothingPending(s: State)
    requires Inv(s) && AtRest(s) && !s.stop
    ensures s.pending == map[] && Batch(s.worker) == map[]
  {
  }

  /** Such a schedule always exists: some act can go on until nothing is left. */
  lemma {:induction false} CanSettle(s: State) returns (rest: seq<Act>)
    requires NoneComing(s)
    ensures CanRun(s, rest) && AllSettling(rest) && Settled(Run(s, rest))
    decreases Left(s)
  {
    if Settled(s) {
      rest := [];
    } else {
      var act :| Settling(act) && Enabled(s, act);
      SettlingLeavesLess(s, act);
      var more := CanSettle(Step(s, act));
      rest := [act] + more;
      assert rest[1..] == more;
    }
  }

  /** A sender that comes while the coalescer runs hands its event over: it is the
      last event of its resource, it is pending, and the worker is woken. One that
      comes after a stop hands over nothing. */
  lemma SenderHandsOver(s: State, t: nat, x: nat)
    requires Enabled(s, Check(t, x))
    ensures s.stop ==> Step(s, Check(t, x)) == s
    ensures !s.stop ==>
              && CanRun(s, [Check(t, x), Insert(t), Wake(t)])
              && var r := Run(s, [Check(t, x), Insert(t), Wake(t)]);
                 && r.inserted == s.inserted + [x] && LastInserted(r.inserted, x) == Some(|s.inserted|)
                 && r.pending == s.pending[x := |s.inserted|] && r.token
                 && SenderOf(r, t).Idle?
  {
    if !s.stop {
      var s1 := Step(s, Check(t, x));
      var s2 := Step(s1, Insert(t));
      assert Enabled(s1, Insert(t)) && Enabled(s2, Wake(t));
      RunOne(s2, Wake(t), []);
      RunOne(s1, Insert(t), [Wake(t)]);
      RunOne(s, Check(t, x), [Insert(t), Wake(t)]);
      assert [Insert(t)] + [Wake(t)] == [Insert(t), Wake(t)];
      assert [Check(t, x)] + [Insert(t), Wake(t)] == [Check(t, x), Insert(t), Wake(t)];
      assert [Wake(t)] + [] == [Wake(t)];
    }
  }

  lemma RunOne(s: State, act: Act, rest: seq<Act>)
    requires Enabled(s, act) && CanRun(Step(s, act), rest)
    ensures CanRun(s, [act] + rest) && Run(s, [act] + rest) == Run(Step(s, act), rest)
  {
    assert ([act] + rest)[1..] == rest;
  }

  /** Stopping, at any time: however it goes on, the worker ends after a bounded
      number of acts, and delivers at most one more event. */
  lemma StoppingEnds(acts: seq<Act>, rest: seq<Act>)
    requires CanRun(Fresh, acts) && NoneComing(Run(Fresh, acts)) && !Run(Fresh, acts).stop
    requires CanRun(Step(Run(Fresh, acts), Stop), rest) && AllSettling(rest)
    ensures var s := Run(Fresh, acts);
            var r := Run(Step(s, Stop), rest);
            && |rest| <= Left(s) + 6
            && (Settled(r) ==> r.worker.Exited?)
            && |r.delivered| <= |s.delivered| + 1
  {
    FreshOk();
    RunOk(Fresh, acts);
    var s := Run(Fresh, acts);
    StepOk(s, Stop);
    assert Wakers(Step(s, Stop)) == Wakers(s);
    SettlingEnds(Step(s, Stop), rest);
    RunOk(Step(s, Stop), rest);
    LateIsCounted(Step(s, Stop), rest);
    var r := Run(Step(s, Stop), rest);
    if Settled(r) && !AtRest(r) {
      var act := SomethingSettles(r);
      assert false;
    }
  }

  lemma {:induction false} LateIsCounted(s: State, rest: seq<Act>)
    requires CanRun(s, rest) && AllSettling(rest) && s.stop
    ensures |Run(s, rest).delivered| - |s.delivered| == Run(s, rest).late - s.late
    decreases |rest|
  {
    if rest != [] {
      assert Step(s, rest[0]).stop;
      LateIsCounted(Step(s, rest[0]), rest[1..]);
    }
  }

  /** Closing the channel, when no sender is left: everything is delivered, and the
      worker ends. */
  lemma ClosingEnds(acts: seq<Act>, rest: seq<Act>)
    requires CanRun(Fresh, acts) && Enabled(Run(Fresh, acts), Close) && !Run(Fresh, acts).stop
    requires CanRun(Step(Run(Fresh, acts), Close), rest) && AllSettling(rest)
    ensures var s := Run(Fresh, acts);
            var r := Run(Step(s, Close), rest);
            Settled(r) ==> r.worker.Exited? && forall x :: LastDelivered(r.delivered, x) == LastInserted(s.inserted, x)
  {
    var s := Run(Fresh, acts);
    CloseIsAct(acts);
    EverythingIsDelivered(acts + [Close], rest);
    SettlingEnds(Step(s, Close), rest);
    ClosedStays(Step(s, Close), rest);
  }

  lemma {:induction false} CloseIsAct(acts: seq<Act>)
    requires CanRun(Fresh, acts) && Enabled(Run(Fresh, acts), Close)
    ensures CanRun(Fresh, acts + [Close]) && Run(Fresh, acts + [Close]) == Step(Run(Fresh, acts), Close)
  {
    RunThen(Fresh, acts, Close);
  }

  lemma {:induction false} RunThen(s: State, acts: seq<Act>, last: Act)
    requires CanRun(s, acts) && Enabled(Run(s, acts), last)
    ensures CanRun(s, acts + [last]) && Run(s, acts + [last]) == Step(Run(s, acts), last)
    decreases |acts|
  {
    if acts == [] {
      assert CanRun(Step(s, last), []);
      RunOne(s, last, []);
      assert [last] + [] == acts + [last];
    } else {
      RunThen(Step(s, acts[0]), acts[1..], last);
      RunOne(s, acts[0], acts[1..] + [last]);
      assert [acts[0]] + (acts[1..] + [last]) == acts + [last];
    }
  }

  lemma {:induction false} ClosedStays(s: State, rest: seq<Act>)
    requires CanRun(s, rest) && AllSettling(rest)
    ensures Run(s, rest).closed == s.closed
    decreases |rest|
  {
    if rest != [] {
      assert Step(s, rest[0]).closed == s.closed;
      ClosedStays(Step(s, rest[0]), rest[1..]);
    }
  }
}
