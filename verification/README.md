# Verified model of the osdns ownership engine

This project models, in Dafny, how osdns takes over DNS state that other
programs may rewrite at any moment, and proves that it never loses what they
wrote, never mistakes its own overlay for the state to go back to, and can be
interrupted anywhere.

`dafny verify dfyconfig.toml` checks everything.

## How the model is built

**One resource** (`World.dfy`) is the whole history of its native state: a list
of writes, each with its value, its native incarnation, its author, and, for an
engine write, the journal files of the resource at that instant. The index of a
write is its generation, so generations increase and are never reused. `Base` is
what the last outside writer left; `Overlay` says that the resource shows
something else. `Durable.dfy` states what holds at every instant, hence also
after a crash: `DurableOk`.

**The boundary** (`Backend.dfy`) is the class `Resource`. Every operation takes an
`Env` that says whether other writers act, whether things fail, and whether the
process may die. Other writers act before every call and after every write; a
failing write may leave any value at all, a silent backend may keep the identity
of a write to itself, a refusing one fails every write without an effect, a failing journal write or removal may or may not be
visible, and a process may die before or after each primitive. Read-back can fail
and never lies. `Quiet` says that nothing failed and nobody else wrote a given
resource during a call; `Undisturbed` allows every failure of our own, as long as
writes are named.

**The engine** follows the source function by function: one guarded mutation
(`Engine.dfy`), the live record and its six states (`Live.dfy`, `Lifecycle.dfy`,
`Restore.dfy`), apply (`Apply.dfy`), update (`Update.dfy`), Enforce
(`Reconcile.dfy`, `Schedule.dfy`), crash recovery (`Recovery.dfy`, `Race.dfy`), the lease
(`Lease.dfy`) and all processes of a host (`Host.dfy`). Methods that the source
writes as steps on shared objects are methods on classes here; each is tied to a
predicate over values, and the reasoning is in small lemmas about those values.

**Whole runs.** `Hosts.Host.Run` performs any number of arbitrary steps: apply,
update, restore, abandon, drop, reconcile, reading the journal, recovering one
resource from a record that was read at any time before, abandoning a journal,
writes by others, deaths of processes, each with any choice of failures inside.
At the end, and so at every point, every resource is safe: no outside value was
overwritten unsaved, nor an abandoned one that a later lease captured, an overlay
has a journal record that can undo it, every restore base came from outside or was
abandoned, and at most one record claims the resource; every record of every lease is well formed, and the
whole journal can be read. There is one condition, on recovery: see below.

**There and back.** `RoundTrip.ThereAndBack` applies a plan, updates to any number
of others and restores: without interference every resource ends as it began and
the journal is empty again.

**Beside the engine:** resource locks (`Locks.dfy`), the event coalescer
(`Coalescer.dfy`), the texts that carry a plan through NetworkManager and
systemd-resolved (`Names.dfy`, `TextConfig.dfy`), the Windows name resolution
policy rules (`Nrpt.dfy`) and reading the journal directory (`Journal.dfy`).

## What turned out to be conditional

- `recover_stale` reads all records before it takes the first lock, and recovers
  each resource from the copy it read. Between the two, the lease of the record may
  have been updated, rebased, restored or abandoned. What a caller can check: with
  the lock held, the copy is still the journal file of its lease. Then recovery
  keeps every promise (`Recovery.FileMayRecover`, `Recovery.RecoverRecord`).
  - If the file is gone, or differs in evidence or in `before`, and the evidence of
    the copy still names the present state, recovery overwrites a state as nothing
    published allows. `Race.OverwrittenAfterAbandon` is such a run, without any
    failure: a lease is abandoned and recovery then overwrites what it left.
  - If there is nothing left to undo for the copy but there is for the file, as when
    a rebase has changed `before` and the present state equals the old one, recovery
    removes the file.
  - Any other difference is harmless. `Recovery.StillCurrent` says exactly this:
    without it even an undisturbed recovery goes beyond published evidence, with it
    no recovery does, whatever else happens (`Recovery.RecoversPublishedIff`,
    `Recovery.RecoverRecord`). `Host.Run` is about the runs in which it holds for each
    recovery that gets a lock.
- A rollback that fails publishes the copy again. Recovery leaves one record on the
  resource exactly if the lease of the copy still has its record, or no other lease
  has one, or the copy would not write (`Recovery.StaysUnique`): then in every
  environment (`Recovery.RecoverRecord`), otherwise not when the backend refuses the
  write (`Recovery.StaysUniqueIff`). `Race.TwoRecordsAfterAbandon` is the run: a lease
  is listed and abandoned, another process captures the resource, publishes its
  intent and dies, and the rollback of the first record is refused. Two records claim
  the resource afterwards, and the journal cannot be read.
- The breaker of a resource is forgotten when its lease ends. Between two ends,
  attempts six apart are a cooldown apart; over any span, at most six are made per
  started cooldown and as many again for each end (`Schedule.AttemptsAreSpaced`,
  `Schedule.AttemptsAreBounded`). Eight can happen at one instant
  (`Schedule.EndForgetsAttempts`).
- A reconciliation pass keeps every event that arrives during it only if the
  resource was pending when it began and its event counter is not saturated
  (`Schedule.TouchDuringPassSurvives`); on an idle resource the first event is
  forgotten unless another one follows (`Schedule.TouchWhileIdle`).
- Sorting the list of one acquisition does not order it after the locks of
  earlier leases. A thread that keeps lock `y` and asks for `x` can be part of a
  wait cycle exactly when `x < y` (`Locks.CycleIff`); lists that begin above all
  kept locks never are (`Locks.NoWaitCycle`). Waiting ends with the lock timeout.
- Generated policy rules pass their own validation exactly when the plan has
  nameservers of which none is unspecified, or has nothing to route
  (`Nrpt.RulesValidIff`). The configuration
  builder refuses unspecified servers, so for a configuration that was built the
  condition is that there is a server, or nothing to route (`Nrpt.BuiltRulesValidIff`).
- An update that finds the new plan in place already succeeds without storing it
  in its records, although the documentation of `Lease::update` says that success
  moves every resource to the new configuration. The model follows the code. Success
  stores the new plan exactly when some recorded overlay did not satisfy it yet, or
  when it was the stored plan (`Updating.TransactUpdate`). A later rebase then follows
  the old plan; it leaves what the new one asks for exactly when both agree on the
  default route or the new base has the route that was shown
  (`Reconcile.RebaseAfterUnneeded`). `RoundTrip.UpdateKeepsOldPlan` is a run on
  which it does not.

## Model

| member | source | states |
|---|---|---|
| Hosts.Host.Run | src/manager.rs:1581-1643 | any run of any length over any number of leases and processes, in which recovery finds its copies still current under the lock, keeps the host valid; no outside value, and no abandoned one that a later lease captured, is overwritten unsaved, every overlay has a record that undoes it, bases come from outside or were abandoned, one record per resource; what was ever read from the journal stays true of the past, every live record is well formed and the whole journal readable |
| Hosts.Host.Step | src/lease.rs:211-313 | each single operation, reading of the journal, recovery from any record that is true of the past, death or outside write, with failures at any primitive, leads from a valid host to a valid host |
| World.ExternalStepsShow | src/platform/fake.rs:334-349 | a step of another actor is always seen: no earlier snapshot names the state, an exchanged object is another incarnation, a removed one is absent, what was written is shown |
| Durable.DurableIsSafe | src/manager.rs:671-835 | what the per-resource invariant means for the history and the journal: no outside value lost, nor an abandoned one that was captured again, overlays written ahead, bases from outside or abandoned, one record |
| Durable.DurableUnderWrite | src/platform/fake.rs:825-1010 | a guarded write over evidence of a journaled base keeps the resource undoable and is itself evidence for that base |
| Durable.DurableUnderForeign | src/platform/fake.rs:334-349 | writes, exchanges and removals by others keep every promise of the journal |
| Durable.BaseHasForeignOrigin | src/manager.rs:577-669 | the base of any generation goes back to an outside write, or to exactly a generation that was abandoned and then captured, through any number of engine writes |
| Durable.PublishedStaysTruthful | src/manager.rs:1336 | a journal file is true of the past at whatever instant it is read, inside an operation or between two, and stays so |
| Dns.MatchesIffMergeIsIdentity | src/platform/fake.rs:46-103 | applying a plan satisfies it, and a state satisfies a plan exactly when applying would change nothing |
| Dns.SatisfiedTogether | src/platform/fake.rs:46-103 | plans that one state satisfies differ at most in asking for the default route, and overlay another base alike exactly when that is immaterial there |
| Backend.Resource.GuardedWrite | src/platform/fake.rs:825-1010 | compare and mutate: a write replaces exactly the expected generation and value; rejection means no write; an absent resource is indeterminate without a write; an identity, when given, names this write |
| Backend.Resource.Observe | src/platform/fake.rs:658-694 | identity and state are read from one native object; an abandoned overlay counts as outside state from then on |
| Backend.Resource.JournalWrite | src/journal.rs:416-463 | publication succeeds, fails unseen, fails visibly, or dies with either outcome |
| Backend.Resource.JournalRemove | src/journal.rs:465-502 | removal likewise; absence is success |
| Engine.BoundWrite | src/platform/mod.rs:422-432 | for backends with compare-and-mutate, the incarnation is checked before the guarded write; a rejection without failures means lost ownership |
| Engine.Compensate | src/manager.rs:595-669 | a rollback writes at most once, only over issued evidence; success means the target was read back; a named write replaces older evidence, and a claim outlives our own failures; with a claim and in quiet it succeeds |
| Engine.WriteBack | src/manager.rs:620-669 | one write over the evidence, whatever the journal says; when the journal covers it, the resource stays undoable and the newest evidence is good for the same base |
| Engine.RollbackProven | src/manager.rs:579-593 | the residue is restored or pending with the same target; undisturbed and owned, a restored one is named and the evidence of a pending one owns the present state |
| Engine.MutateAndVerify | src/manager.rs:448-577 | success: the observed state satisfies the plan and carries the identity of this write; unchanged: no write; restored: read back equal to expected; pending keeps the target and only newer evidence, which owns the present state unless disturbed; quiet and owned means success |
| Engine.StillOwned | src/platform/fake.rs:1012-1018 | a snapshot that names the present state after outside steps proves that nothing happened in between |
| Live.LiveIsWellFormed | src/lease.rs:25-52 | between operations a record is never Prepared, repairs do not nest, Committed carries an overlay that satisfies its intent, and the durable record is the live one; `Hosts.Host.Run` promises it for all leases |
| Live.ValidUnderForeign | src/lease.rs:18-43 | outside steps keep everything that a live record claims |
| Live.ClaimsDoNotAppear | src/platform/fake.rs:1012-1018 | outside steps never make a stale identity own the present state |
| Lifecycle.PersistLive | src/manager.rs:995-1017 | publishes a record or leaves a repair of exactly that record |
| Lifecycle.PrepareLive | src/manager.rs:1022-1038 | a new intent is durable, or the record is as before, possibly behind a repair |
| Lifecycle.RetainCompensation | src/manager.rs:1049-1067 | newest evidence is published conservatively, with the place to resume |
| Lifecycle.ResolveCompensation | src/manager.rs:1069-1134 | an outstanding rollback is finished, and the record regained, or stays pending with its newest evidence |
| Lifecycle.LiveUnderRollback | src/manager.rs:595-669 | whatever a rollback attempt did, the pending rollback stays well formed |
| Restoring.ResolveLive | src/manager.rs:1069-1134 | resolving writes only under a claim, gains no claim without a write, with a claim in quiet succeeds, and never loses a claim by our own failures |
| Restoring.CommitVerified | src/manager.rs:1040-1047 | a verified mutation is committed or stays verified |
| Restoring.RestoreLive | src/manager.rs:1139-1225 | restoring writes only under a claim; success removes the record and leaves nothing of ours, exactly the original state if nobody else wrote; a claim suffices in quiet, however many attempts failed before |
| Restoring.RestoreEventually | src/manager.rs:1139-1225 | after any number of attempts that failed in any way of our own, the next undisturbed attempt takes the resource back and removes its record |
| Restoring.UndoOverlay | src/manager.rs:1182-1225 | a committed overlay is taken back from its own identity, never from a fresh read; a failed attempt can be repeated |
| Recovery.RecoverRecord | src/manager.rs:1231-1313 | for any copy, read at any time: undisturbed it does exactly what `PeacefulRecovery` says, against a refusing backend exactly what `RefusedRecovery` says; one record stays one under `StaysUnique`, in every environment; for a copy that is still current, in every environment, the resource stays undoable, at most one write happens, over the generation that the published record names, to its original state, the record goes only when nothing is left to undo, and recoverable and quiet means recovered |
| Recovery.RecoversPublishedIff | src/manager.rs:1227-1313 | undisturbed recovery of a copy writes over published evidence only, back to the published original state, and removes a record only when it has nothing left to undo, exactly when the copy is still current; that a current copy suffices in every environment is in `Recovery.RecoverRecord` |
| Recovery.FileMayRecover | src/manager.rs:1335-1357 | a copy that equals the journal file of its lease is current |
| Recovery.AssessmentTells | src/manager.rs:1231-1313 | gone, replaced, back at the original state, ours and in conflict exclude each other, and each is reported as such |
| Recovery.StaysUniqueIff | src/manager.rs:1283-1296 | recovery against a backend that refuses to write leaves one record exactly when the lease of the copy has its record, no other lease has one, or the copy would not write |
| Recovery.RepublishedIff | src/manager.rs:1291-1296 | the record that a failed rollback publishes leaves one record exactly when no other lease has one |
| Recovery.RecoverListed | src/manager.rs:1346-1369 | recovery from a listed copy: busy and foreign resources are untouched, any other ends as recovery of that copy does, a failure being reported and the lock freed, and the copy is not read again |
| Race.HeldIsTakenBack | src/manager.rs:1269-1286 | a copy of a committed overlay that changed the resource writes even after the claim and the record are gone |
| Race.OverwrittenAfterAbandon | src/manager.rs:1335-1372 | a run without failures in which recovery overwrites an abandoned overlay with no record published |
| Race.TwoRecordsAfterAbandon | src/manager.rs:1291-1296 | a run in which the listed record of an abandoned lease is published beside the record of the next lease; the condition for one record failed, two claim the resource, and reading the journal is refused |
| Recovery.RecoverDespiteCrashes | src/manager.rs:1231-1313 | recovery that dies any number of times and is rerun ends in the original state without a record |
| Recovery.RecoverForResource | src/manager.rs:1315-1333 | only a resource whose record is gone may be captured; records of other owners are not touched |
| Recovery.RecoverStale | src/manager.rs:1335-1372 | an uninterrupted pass, which lists everything before it locks anything: every resource is recovered, reported busy, or left to its owner; what a live lease has locked is not touched |
| Applying.PersistUnmutated | src/manager.rs:671-687 | all intents are published, or what may be visible is withdrawn |
| Applying.MutateAll | src/manager.rs:744-750 | resources are mutated in order up to the first failure; those behind it are untouched |
| Applying.CleanUp | src/manager.rs:750-811 | after a failure every resource is back without a record, or its record can undo it |
| Applying.CommitAll | src/manager.rs:812-829 | verified mutations are committed or stay pending; the first failure is reported |
| Applying.TransactWithLocks | src/manager.rs:697-835 | apply: every resource is handed over with an overlay that the lease owns and that satisfies the plan, or every resource is as if untouched or still undoable; a no-op writes no resource |
| Updating.RevertOne | src/manager.rs:935-970 | the record is back under its old intent; undisturbed, the lease owns the resource in any case, as committed or with a rollback that it can still finish |
| Updating.ReinstatedOk | src/manager.rs:951-970 | the republished old record is well formed and, if nobody else wrote, the resource shows the previous overlay; undisturbed, the lease owns it |
| Updating.MoveAll | src/manager.rs:914-920 | resources are moved in order up to the first failure |
| Updating.MoveOver | src/manager.rs:888-991 | all resources carry the plan, or all are reverted |
| Updating.TransactUpdate | src/manager.rs:846-991 | update is atomic in intent and effect: one intent for all records in every outcome short of death; refusal touches nothing; nothing is done exactly when every recorded overlay satisfies the new plan, and success stores the new plan exactly when one did not, or it was stored before; after a failure without outside writes every resource is back at its previous overlay |
| Leases.Lease.Update | src/lease.rs:211-313 | an ended or ending lease refuses; a plan for other resources never succeeds and changes nothing, and is answered by a request to rebind when the leased incarnations are there; a fitting plan for an active lease succeeds when nothing stands in the way; on success every recorded overlay satisfies the plan, and so does what each resource shows unless somebody else wrote it, and the stored intent is the new plan exactly unless it was shown already |
| Leases.CheckStatuses | src/lease.rs:250-283 | undisturbed, an update goes on exactly when every resource is the incarnation that was leased, and otherwise says that it is gone or replaced |
| Leases.Lease.RestoreState | src/lease.rs:353-407 | each resource is restored on its own; the lease keeps exactly the records that failed and exactly their locks |
| Leases.Lease.AbandonState | src/lease.rs:427-468 | claims are given up without touching any resource; kept records and locks correspond |
| Leases.Lease.Drop | src/lease.rs:538-567 | dropping restores or finishes abandoning, and frees every lock |
| Leases.EndAll | src/lease.rs:371-389 | the records and locks that remain are those whose end failed, and the first failure is the one reported |
| Leases.TallyDrops | src/lease.rs:376-380 | releasing one lock keeps locks and remaining records in exact correspondence |
| Hosts.ApplyLocked | src/manager.rs:1591-1643 | recovery, capture and transaction under locks: all resources granted with the plan, or all still safe; quiet and free means granted |
| Hosts.Host.Apply | src/manager.rs:1581-1643 | a successful apply adds one lease that holds exactly the wanted locks, with one record for each wanted resource, in order, that desires the plan; undisturbed on free resources it succeeds, each of them shows the plan, and the state from before is the one to go back to; failure adds none |
| Hosts.Host.UpdateLease | src/lease.rs:211-313 | an update of one lease beside all others: success updates its resources as `Leases.Lease.Update` says, and all other leases stay valid |
| Hosts.Host.RestoreLease | src/lease.rs:353-407 | restoring one lease beside all others: each of its resources is restored as `Leases.EndAll` says, success ends it |
| Hosts.Host.AbandonLease | src/lease.rs:427-468 | abandoning one lease beside all others: no resource is written, success ends it |
| Hosts.Host.DropLease | src/lease.rs:538-567 | dropping one lease beside all others: it restores unless it was being abandoned, and it ends |
| Hosts.Host.ReconcileLease | src/reconciliation.rs:250-315 | reconciling one resource of a lease beside all others: the pass and its use of the breaker are those of `Reconcile.ReconcileResource` |
| Hosts.ObservedIsCaptured | src/platform/fake.rs:658-694 | a resource without a record, as observed, is its own restore base |
| Hosts.Host.AbandonJournal | src/manager.rs:1374-1400 | a stale journal is given up only under the lock and by its owner, and then it is unless something fails |
| Hosts.Host.Recover | src/manager.rs:1335-1372 | an uninterrupted recovery pass beside running leases does to every resource what `Recovery.RecoverStale` says and leaves all leases valid |
| Hosts.Host.List | src/manager.rs:1336 | reading a record without its lock gives the journal's record and changes nothing but who has read it, whoever holds the resource; records that exist only inside an operation are covered by `Hosts.Host.RecoverCopy`, which asks only that the copy is true of the past |
| Hosts.Host.RecoverCopy | src/manager.rs:1349-1369 | recovery from any record that is true of the past, under the lock, keeps the whole host valid when the copy is still current; busy and foreign resources are untouched |
| Hosts.Host.Kill | src/ownership.rs:316-333 | the death of a process frees its locks and no others |
| RoundTrip.ThereAndBack | src/lease.rs:315-407 | apply, any number of updates and a restoration, undisturbed, are the identity on every resource and on the journal |
| RoundTrip.UpdateHeld | src/lease.rs:167-313 | an undisturbed update always succeeds, shows its plan, and keeps the original state as the one to go back to |
| RoundTrip.UpdateKeepsOldPlan | src/manager.rs:868-886 | a run of an apply and an update that both succeed undisturbed, after which the record has the first plan and a later rebase onto another default route leaves something else than the second plan asks for |
| Reconcile.ApplyOverlay | src/reconciliation.rs:426-477 | a rebase journals the base it overwrites before it writes, and ends committed only with an overlay that satisfies the intent |
| Reconcile.ReconcilePass | src/reconciliation.rs:318-424 | equal values under an identity that is not ours grant nothing and nothing is written, as long as nobody else writes this resource during the pass; a base is replaced only with a permission of the breaker, which is thereby used; a quiet pass keeps what is ours, holds off on equal values, holds off without a write when the breaker forbids, and rebases otherwise |
| Reconcile.ReconcileStable | src/reconciliation.rs:375-424 | the decision on a stable state, with what becomes of breaker and schedule: in every environment equal values under an identity that is not ours, and a state that the breaker forbids to take as base, are left alone for the stated time; an owned state never disagrees with what is desired |
| Reconcile.ReconcileResource | src/reconciliation.rs:250-315 | a vanished incarnation drops the record and everything scheduled for it; an inconclusive pass is scheduled again, not before the time its verdict asks for; a conclusive one leaves the resource pending only for events that arrived meanwhile; the breaker is used as in the pass |
| Reconcile.RebaseAfterUnneeded | src/reconciliation.rs:426-477 | after an update that stored nothing, a rebase leaves what the newer plan asks for exactly when the default routes agree or the new base has the route that was shown |
| Schedule.NeverFarAhead | src/reconciliation.rs:130-149 | no run schedules a resource more than thirty seconds ahead |
| Schedule.NeverEarlier | src/reconciliation.rs:114-149 | events and deferrals never make a resource due earlier |
| Schedule.TouchDuringPassSurvives | src/reconciliation.rs:164-175 | a pass over a pending resource leaves it pending and due exactly when an event arrived and the counter had room |
| Schedule.TouchWhileIdle | src/reconciliation.rs:156-175 | a pass over an idle resource keeps it exactly when a second event arrived |
| Schedule.AttemptsAreSpaced | src/reconciliation.rs:187-212 | in every run, permitted attempts six apart are a cooldown apart unless the lease ended between them; `Reconcile.ReconcilePass` replaces a base only with such a permission |
| Schedule.AttemptsAreBounded | src/reconciliation.rs:61-65 | in any span, at most six attempts per started cooldown and six more for each lease end in it |
| Schedule.EndForgetsAttempts | src/reconciliation.rs:151-154 | a lease end lets eight attempts happen at one instant |
| Schedule.PermittedIff | src/reconciliation.rs:187-212 | in every run, an attempt is permitted exactly when the breaker is not open and fewer than six remembered attempts lie within the window; a refusal says until when |
| Schedule.RecentCounts | src/reconciliation.rs:197-203 | what stays remembered are exactly the attempts within the window |
| Schedule.BackoffDoubles | src/reconciliation.rs:130-149 | the wait after failures starts at the delay, doubles seven times and never exceeds thirty seconds |
| Schedule.FailuresBackOff | src/reconciliation.rs:130-149 | failures in a row are counted, the n-th waits at least its backoff, events are kept, and anything but a failure starts the count again |
| Schedule.EndForgetsSchedule | src/reconciliation.rs:151-154 | after the end of a lease nothing depends on what was scheduled before |
| Schedule.Reconciler.TouchAt | src/reconciliation.rs:114-128 | an event makes a resource pending at once, or counts on an entry that is there |
| Schedule.Reconciler.DeferAt | src/reconciliation.rs:130-149 | deferral with bounded exponential backoff, never earlier than before |
| Schedule.Reconciler.BreakerGate | src/reconciliation.rs:187-212 | the breaker decides as its specification does |
| Journal.Records | src/journal.rs:514-552 | the directory is read exactly when every record is valid and no two name one resource |
| Journal.ReachableIsReadable | src/journal.rs:540-548 | resources in order have a journal that can be read, in whatever order the directory lists it; `Hosts.Host.Run` promises it for every run |
| Locks.OneHolder | src/ownership.rs:187-219 | in every run at most one thread owns a resource, and only its process has it registered |
| Locks.AllOrNone | src/ownership.rs:225-240 | a call that succeeds returns with what its thread kept and all of its list; any other call returns with exactly what was kept |
| Locks.ReleaseFrees | src/ownership.rs:316-333 | whatever the others do, a thread that drops a lock can close its file, and then nobody has the resource in any way and the thread has exactly its other locks |
| Locks.DeathFrees | src/ownership.rs:316-333 | the death of a process frees everything its threads had and nothing else |
| Locks.FreeIsTaken | src/ownership.rs:225-240 | a call whose whole list is free takes it, if nobody acts in between |
| Locks.FailureReturns | src/ownership.rs:225-240 | a call that failed gives back everything it took, and returns |
| Locks.RefusedReturns | src/ownership.rs:187-219 | a thread whose waiting ends, or that asks for what its own process has, gives back what the call took and returns |
| Locks.ThreadStarts | src/ownership.rs:150-219 | a new thread has no locks and can call |
| Locks.NoWaitCycle | src/ownership.rs:222-240 | runs whose lists begin above the kept locks never reach a cycle of waiting threads |
| Locks.CycleIff | src/ownership.rs:222-240 | exactly when an earlier lock can lead to a wait cycle in spite of sorting |
| Locks.StepOk | src/ownership.rs:187-333 | every step of every thread keeps lock files and registries in agreement |
| Coalescer.NothingIsLost | src/watch.rs:190-248 | until stopped, pending events have a wakeup on its way, and when nothing is on its way the last event of every resource was delivered |
| Coalescer.EverythingIsDelivered | src/watch.rs:207-248 | from every reachable state, once no new event comes in, however wakeups and worker are scheduled: after a bounded number of acts nothing is left to do, and then the last event of every resource was delivered, or, after a stop, the worker is gone |
| Coalescer.SettlingLeavesLess | src/watch.rs:207-248 | every wakeup and every act of the worker brings the end of the work closer |
| Coalescer.CanSettle | src/watch.rs:207-248 | some act can always go on until nothing is left to do |
| Coalescer.SenderHandsOver | src/watch.rs:234-242 | a sender that comes while the coalescer runs makes its event the last and pending one of its resource and wakes the worker; after a stop it hands over nothing |
| Coalescer.StoppingEnds | src/watch.rs:265-277 | from any reachable state a stop ends the worker after a bounded number of acts, with at most one more delivery |
| Coalescer.ClosingEnds | src/watch.rs:219-222 | closing the channel delivers everything and ends the worker |
| Coalescer.DeliveriesAreSound | src/watch.rs:257-299 | deliveries are insertions, in order and at most once per resource, at most one after a stop, and a stopped worker is not left waiting |
| Names.ParseDisplay | src/normalize.rs:29-67 | parsing undoes the display of every canonical name, and the root has its own |
| Names.ParseSuffixIff | src/normalize.rs:29-67 | exactly the canonical names are parsed, with or without a dot at the end |
| TextConfig.FromPlan | src/platform/text_config.rs:121-160 | the written fields are both address families and the search entries of the plan |
| TextConfig.ParseEntries | src/platform/text_config.rs:168-193 | parsing entries computes the specified domains |
| TextConfig.ParsedExactly | src/platform/text_config.rs:168-193 | parsing any entries keeps every name that some entry of its kind has, each once and in the order of its first entry, and nothing else |
| TextConfig.NmRoundTrip | src/platform/text_config.rs:121-193 | parsing what was written gives exactly the non-root search domains and the routing domains not searched, in order |
| TextConfig.RootTravels | src/platform/text_config.rs:143-153 | the root is routed exactly when the wildcard entry is written |
| TextConfig.NmServersRoundTrip | src/platform/text_config.rs:123-128 | the nameservers of each family come back in order and none is lost |
| TextConfig.LinkDnsRoundTrip | src/platform/text_config.rs:44-70 | link nameservers come back exactly |
| TextConfig.LinkDomainsFromPlan | src/platform/text_config.rs:70-88 | the loops write each domain once, search before routing |
| TextConfig.LinkDomainsToPublic | src/platform/text_config.rs:90-110 | the loop computes the specified domains |
| TextConfig.PublicExactly | src/platform/text_config.rs:90-110 | reading any link domains back keeps every name that some entry of its kind has, each once and in the order of its first entry, and nothing else |
| TextConfig.LinkDomainsRoundTrip | src/platform/text_config.rs:72-110 | link domains come back as the search domains, root included, and the routing domains not searched |
| Nrpt.ChunksPartition | src/platform/windows/nrpt.rs:100-104 | chunks are non-empty, at most fifty long, and concatenate to the list |
| Nrpt.NamespacesFromPlan | src/platform/windows/nrpt.rs:86-106 | the loops compute the chunks of the namespaces of the plan |
| Nrpt.SeedInjective | src/platform/windows/nrpt.rs:42-46 | the text behind a rule key determines owner and namespaces |
| Nrpt.RulesCover | src/platform/windows/nrpt.rs:86-127 | the namespaces of a plan are its routing domains, and the root if it asks for the default route, each once; the rules cover them once and in order, under different keys, with the servers of the plan |
| Nrpt.RulesValidIff | src/platform/windows/nrpt.rs:353-377 | generated rules are valid exactly when the plan has servers and none is unspecified, or routes nothing |
| Nrpt.BuiltRulesValidIff | src/config.rs:261-267 | for a plan that was built, rules are valid exactly when there is a server or nothing to route |
| Nrpt.ValidRuleIsGenerated | src/platform/windows/nrpt.rs:353-377 | validation accepts only rules that some plan generates |
| Nrpt.Registry.WriteRule | src/platform/windows/nrpt.rs:129-226 | with enough successful writes it succeeds exactly on a valid rule whose key is new or holds a rule of this owner with other servers at most; a foreign key is never written; an update is all or nothing; an interrupted creation leaves no unmarked values |

## Left out

- Backends without durable identities or without compare-and-mutate, and everything native: D-Bus, netlink, registry access, file formats and metadata, backend detection, capability flags.
- Backend.Resource.Interfere: other writers act before each call on a resource and right after each engine write; a write at another moment is observed by nobody before the next call on that resource, so it is covered.
- Backend.Resource.Observe: adoption of an abandoned overlay is bookkeeping of the model and has no counterpart at run time.
- Hosts.ListAround: that the records of a resource which were ever read are remembered beside its history is bookkeeping of the model; in the source they are the local list of the process that read them.
- Durable.DurableIsSafe: an overlay whose claim was given up is not promised a record; giving up may remove the record and still report a failure, and a later restoration of that lease then writes without one.
- Engine.BoundWrite: the branch for backends without compare-and-mutate is not modelled; it reads, compares and then writes without a guard, so a write of somebody else in between is lost there.
- Hosts.Host.List: reads one record at a time, so one listing may be spread over any number of steps of others; the refusal of a listing with two records for one resource is `Journal.Records`.
- Hosts.Host.RecoverCopy: a copy may be recovered by any process and more than once, which only adds runs.
- Journal.ReachableIsReadable: is about the directory at one instant; the source opens file after file, and can then find two records of a resource that changed hands meanwhile and refuse.
- Leases.Lease.Drop: ends the registration before it restores, under the same token under which the source does both in the other order.
- Hosts.AcquireAll: does not wait; a lock that stays occupied until the timeout and one that is refused at once both end the call. Waiting is the subject of `Locks.dfy`.
- Reconcile.ReconcilePass: uses one time for the whole pass.
- Updating.RevertOne: after a rollback whose identity the backend withheld, the record keeps its intent without a claim on the present state.
- Names.ParseSuffix: is defined on text that is already lower-case ASCII; trimming, Unicode and internationalized names are not part of this model.
- Nrpt.SeedInjective: is about the hashed text; that different texts have different UUIDs is assumed by the source, not proved here.
- Applying.TransactWithLocks: lease ids are arbitrary numbers; nothing depends on their being fresh.
- Enforce watch plumbing, event suppression windows, journal encoding and file system durability, error texts and configuration builders.
- Progress of Enforce while a verified mutation or a rollback is outstanding on a resource that others changed: the source defers there.
