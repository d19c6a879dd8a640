# Proofs about django-logic's background transitions

django-logic drives a model instance through the states of one field. A
*background* transition does not run in the caller: it leaves a
`TransitionMessage` row behind, and a worker runs it later, with retries,
crashes, a watchdog and a cleanup sweep. What keeps this safe is spread over
many functions: a cache lock with an owner token, a partial unique constraint,
a recheck after the insert, a row lock, a state guard, savepoints, and a list of
deferred unlocks kept beside Django's commit hooks. This project models those
parts in Dafny and proves what they guarantee together.

`dafny verify dfyconfig.toml` checks everything.

| files | what they model |
|---|---|
| `Protocol`, `ProtocolInvariant`, `ProtocolSteps`, `ProtocolRuns`, `ProtocolFrames` | the whole protocol as one step machine over any number of instances, callers, workers and safety-net passes; its invariant; what each step leaves alone |
| `ProtocolCalm`, `ProtocolAcceptance`, `ProtocolTheorems`, `ProtocolWitnesses`, `ProtocolGate`, `ProtocolAttempt` | the theorems over whole runs; runs that show their conditions are needed; the exact condition for the synchronous gate; the worker moves as a refinement of the attempt's transaction |
| `Locking` | `State` and the critical sections of synchronous transitions, failing actions and enqueue, statement by statement, with everyone else at work in between |
| `Messages`, `MessageRow` | the row's writers and time rules as functions, and the same writers in place, over a loaded copy that may be stale |
| `Savepoints`, `Registry`, `Sessions`, `Meaning`, `Attempt`, `Connection` | Django's connection (atomic blocks, savepoints, `needs_rollback`, commit hooks), the deferred-unlock registry, a small language of side-effects, a reference meaning for it, and the worker's attempt; `Connection` is the imperative form of all of it |
| `Table`, `Journal`, `Cleanup`, `Worker` | the drain loop with its safety nets, and the cleanup sweep |
| `ProcessTree`, `Resolution`, `Restore` | the walks of the nested-process graph, resolution at enqueue, restoration on the worker, the class-time validator |
| `Codec`, `JsonColumn`, `Kwargs`, `KwargsWitnesses` | the kwargs codec, the JSON column (RFC 8259, section 4 for string keys and section 6 for numbers), the whole trip of a call's kwargs, and calls that arrive changed |

## How the protocol machine reads

One step is one statement or one commit. `Enq` moves are lock, check the source,
insert, recheck, commit (with the in-progress write) and failure at any point;
`Sync` moves are the two separate reads of the gate, the state write and
failure; `Act` moves are the probe and the `failed_state` write; `Work` moves
are the stamp, the row lock, restoration, the state guard, success, failure,
the finalizations of the watchdog and the stuck finalizer, and the record of a
dead child. Crashes, lock expiry, cleanup, outside writes and time are steps of
their own. An enqueue's row is invisible until it commits; until then it holds
the unique-index slot of its instance. The worker's success and failure are one
step each: `AttemptIsMoves` proves that the attempt's transaction, for any
side-effects, ends where those moves end. `touched`, `disturbed`, `births`,
`events` and a reader's `outcomes` are history: they record what happened, and
no step's outcome depends on them.

The hypothesis of the placement theorems is `Calm`, over a stretch of a run that
starts with a look (a recheck, a state read or a probe): nothing from outside
writes the instance, and every caller in a section on it still holds its lock.
What happened before the look does not matter. `ProtocolWitnesses` shows that
each half is needed.

## Where the code gives less than it seems to

- The synchronous gate reads the state first and the row second
  (`django_logic/transition.py:255-256`), and a worker can finish between the two.
  `GateIsSoundIffCompatible` gives the exact condition under which the source
  check still holds once the gate has passed: every background declaration in
  use that can rest in a source of the synchronous one has its target and its
  `failed_state` among those sources.
- A synchronous target write is not in a savepoint (`django_logic/transition.py:284-303`),
  and a follow-up's availability is checked outside its `try`
  (`django_logic/commands.py:293-300`). When `save()` or the refresh raises after
  the column was written, or that check raises after the unlock, the call raises
  with the target in place. A commit hook that raises after COMMIT leaves
  `failed_state` in the column while the attribute is put back and the write
  counts as not made. `ChangeState` says when a call returns and what every other
  exit leaves. Likewise a refused COMMIT leaves the in-progress state on the
  attribute of an enqueue, and an enqueue whose commit hook or dispatch raises has
  committed its row.
- Django runs commit hooks in order and drops those behind one that raises. A hook
  of the consumer's that raises, registered before a transition is driven in the
  same transaction under `DEFER_UNLOCK_UNTIL_COMMIT`, keeps that transition's lock
  held until its TTL although the transaction committed, and the registry filled.
  `CommitReleasesWhatItReaches`, `RegistryHeals` and `AttemptReleasesItsLocks` give
  the exact condition, and `HookAheadKeepsTheLock` both orders.
- One declaration can be ambiguous with itself: shared by two valid nested
  classes, or listed twice by one. `ResolvesIffAvailableOnce` counts places,
  and `SharedDeclarationsAreSeveral` shows both inputs.
- The kwargs round trip is faithful exactly when every dict written has string
  keys and no float is written that the jsonb column gives back as an integer
  (`1e+16` is one). Strict mode refuses the former and accepts the latter.
- `run_worker`'s docstring says that `forever=False` runs exactly one pass
  (`django_logic/background/pull.py:234-235`); the code repeats passes until a
  drain has run nothing. The model follows the code.

## Model

| member | source | states |
|---|---|---|
| ProtocolRuns.StepKeeps | django_logic/background/runner.py:499-564 | every step of enqueue, synchronous paths, workers, safety nets, crashes, expiry, cleanup and outside writes keeps the whole invariant |
| ProtocolRuns.RunKeeps | django_logic/background/transitions.py:169-304 | so every reachable state of every run has it |
| ProtocolTheorems.InstancesStayWhereEnqueueLeftThem | django_logic/background/runner.py:654-681 | for every row of every run: if since its recheck nothing from outside wrote its instance and no caller there lost its lock, it was accepted in a source, the instance stays where its worker expects it while it is open, and it is never completed as superseded |
| ProtocolWitnesses.OutsideWriteSupersedes | django_logic/background/runner.py:928-949 | for every declaration and every state `v` off its resting place there is a run in which one outside write of `v` is all that interferes with the queue, and a row is superseded |
| ProtocolWitnesses.ExpiredLockSupersedes | django_logic/state.py:78-111 | for all declarations that share a source and every `v` off the resting place there is a run in which one synchronous transition, the expiry of its lock and then its late write of `v` are all that interferes, and a row is superseded |
| ProtocolAcceptance.AcceptanceIsSerialized | django_logic/background/transitions.py:239-304 | a row enters the table only by an enqueue's commit; an earlier step of the run is that enqueue's recheck, which found the persisted state in a source; from it to the commit the instance has no uncompleted row; and unless someone outside the queue wrote the instance in between, the persisted state is a source at the commit too and the instance is left at rest for the worker |
| ProtocolTheorems.OneRowAtATime | django_logic/background/models.py:143-153 | at most one uncompleted row per instance and process in every reachable state |
| ProtocolTheorems.QueueAloneNeedsNoLock | django_logic/background/transitions.py:276-304 | without synchronous or outside writes every row commits in a source with no rival, stays in place and is never superseded, though every lock may expire under its holder |
| ProtocolTheorems.CompletedForGood | django_logic/background/runner.py:567-591 | completion is never undone: from then on the row is unchanged or deleted, and its key is never used again |
| ProtocolTheorems.EffectsLandAtMostOnce | django_logic/background/runner.py:772-791 | the step that commits a row's side-effects and target (`AttemptIsMoves`) happens at most once in a run, and never after the row was completed as failed, superseded or unrestorable |
| ProtocolAttempt.AttemptIsMoves | django_logic/background/runner.py:499-564 | for every job, connection and machine state: the attempt's transaction and the machine's moves end in the same state column and the same row and touch no other row, and the moves end with success exactly when every write of the side-effects is committed with them |
| ProtocolTheorems.StatesMoveByTheirOwners | django_logic/background/runner.py:684-736 | every change of a persisted state in a run is an enqueue's in-progress write, the target of a row that completes as a success, the `failed_state` of a row that completes as a failure, a synchronous write past its gate, a failing action's write past its probe, or an outside write |
| ProtocolTheorems.RowsNeverFallBetween | django_logic/background/safety_nets.py:39-52 | in every run an uncompleted row is claimable, becomes so once the wait passes, or is in the stuck scan; a stranded one already is; error budgets hold until a death is recorded; at most one timeout charge per stamp |
| ProtocolTheorems.WatchdogSparesLiveAttempts | django_logic/background/runner.py:211-275 | when the watchdog charges or takes a row in a run, every attempt ever stamped on that row has outlived its timeout, however long before the scan was made, and nobody holds the row |
| ProtocolTheorems.GatesExcludeWorkers | django_logic/transition.py:226-265 | from its look to its write, with nothing from outside and locks kept since, a synchronous transition past its gate shares its instance with no uncompleted row and no worker; the same exclusion for a failing action |
| ProtocolGate.GateIsSoundIffCompatible | django_logic/transition.py:254-265 | past the gate the persisted state is a source in all ordinary runs if and only if every background declaration in use that can rest in a source of the transition has its target and `failed_state` among its sources |
| ProtocolWitnesses.GateReadsCanTear | django_logic/transition.py:255-256 | the gate's two reads can be split by a worker: for every pair of declarations that allows it there is a run in which that transition is all that interferes, and past its gate the persisted state has left its sources |
| ProtocolTheorems.TokensAreTheirOwners | django_logic/state.py:93-111 | a lock token leaves the cache only by the unlock of the acquisition it was issued to or by expiry, and is never replaced in place |
| ProtocolTheorems.SectionsEndUnlocked | django_logic/background/transitions.py:164-202 | the only ways out of a critical section are its own unlock, after which the token is gone, and a crash |
| Locking.State.Lock | django_logic/state.py:78-91 | set-if-absent with a fresh token |
| Locking.State.Unlock | django_logic/state.py:93-111 | compare and delete: an owned token goes, a successor's stays; without a token anything goes |
| Locking.State.SetState | django_logic/state.py:42-63 | column and attribute for each way the write can end, at once or in a block, including landed and then raised, and cut short by a BaseException; no state may be written before the gate passed, or before the inserted row's recheck |
| Locking.State.ChangeState | django_logic/transition.py:209-411 | every ordinary exit has released its own token before its hooks run and removed nobody else's; only a BaseException out of the gate, the side-effects or the target write keeps the lock; a call returns exactly when its target was written and read back and no callback or follow-up check let anything through; for every exit, what is left in the column and on the attribute |
| Locking.State.WriteFailedState | django_logic/transition.py:328-373 | column, attribute and report for each way the write of `failed_state` can end: lost, reported, committed and then a commit hook raised, or cut short by a BaseException before or after COMMIT |
| Locking.State.FailAction | django_logic/transition.py:538-651 | a failing action writes at most `failed_state`, only under its own lock with no row open, with the outcomes of `WriteFailedState`, and always gives the lock back before the hooks |
| Locking.State.EnqueueAtomic | django_logic/background/transitions.py:209-309 | insert, recheck, in-progress write and commit: the database gets all or nothing; it returns exactly when it committed and no commit hook raised; the attribute is left at the in-progress state also by a failed refresh, a refused COMMIT or a BaseException in the write, and in no other failure |
| Locking.State.Enqueue | django_logic/background/transitions.py:122-207 | whatever happens in the section the lock is given back; the in-progress state is written exactly when the row commits; a call returns exactly when it committed, no commit hook raised and it was dispatched |
| Messages.HistoryKeeps | django_logic/background/models.py:272-393 | over any allowed writes: timestamps stay ordered, a completed row takes no further write, errors never fall, and the error budget holds while no death is recorded |
| Messages.NoDeadZone | django_logic/background/models.py:209-270 | after any history an uncompleted row is in the stuck scan or claimable past its wait; stranded implies one of the two already |
| Messages.OneChargePerStamp | django_logic/background/runner.py:211-275 | one attempt is charged at most one timeout over any number of sweeps, and none once an error is on record since its stamp |
| MessageRow.TransitionMessage.RecordError | django_logic/background/models.py:375-393 | the increment lands on the stored count even from a stale copy, which comes out holding the committed count |
| MessageRow.TransitionMessage.MarkAsCompleted | django_logic/background/models.py:330-359 | completes the row, touches no error column, sets but never clears the failure flag, measures no negative duration |
| MessageRow.TransitionMessage.MarkAsSuperseded | django_logic/background/models.py:361-373 | completes with the note and the time, without an error and without the failure flag |
| MessageRow.TransitionMessage.HandleSuccess | django_logic/background/runner.py:772-791 | closes the row with its measured duration and no error |
| MessageRow.TransitionMessage.HandleFailure | django_logic/background/runner.py:794-880 | terminal exactly at the error limit or for a permanent failure; otherwise the row is uncompleted and not claimable yet |
| MessageRow.TransitionMessage.HandleRestoreFailure | django_logic/background/runner.py:739-769 | counts the failure, and completes the row exactly at the error limit |
| MessageRow.TransitionMessage.AbandonTimedOutAttempt | django_logic/background/runner.py:187-291 | touches the locked row exactly when it is overdue with no error since its stamp, and cannot do so twice |
| MessageRow.TransitionMessage.FinalizeStuckAttempt | django_logic/background/runner.py:294-340 | always completes the row: superseded when the guard fails, failed otherwise |
| MessageRow.StampAttemptStarted | django_logic/background/models.py:272-328 | stamps exactly when nobody holds the row and it is uncompleted |
| MessageRow.RecordChildDeath | django_logic/background/pull.py:153-182 | an error on an uncompleted row, nothing on a completed one |
| MessageRow.MarkUnrestorableCompleted | django_logic/background/runner.py:143-184 | completes an uncompleted row as failed, and leaves a completed one alone |
| Registry.ExecKeeps | django_logic/commands.py:35-151 | for any program, however nested and however it rolls back: the deferred-unlock entries added equal, in order, the unlocks still queued; a transition's lock is released or registered on every ordinary exit; every queued unlock is covered by a queued clear that cannot be dropped before it |
| Sessions.SavepointIsAllOrNothing | django_logic/commands.py:84-133 | an engine savepoint that rolls back, with or without an exception, leaves data, queue, registry and locks as they were; one that commits keeps all of its body |
| Sessions.CommitReleasesWhatItReaches | django_logic/transition.py:390-402 | with engine savepoints only, a commit leaves held exactly the locks whose unlocks stand behind a commit hook that raises, so it gives back every lock taken in the transaction if and only if there is none; the registry is emptied exactly when a clear stands ahead of such a hook |
| Sessions.RegistryHeals | django_logic/commands.py:43-70 | also with the consumer's own atomic blocks and stale entries: a commit releases exactly the unlocks queued ahead of the first raising hook, and empties the registry exactly when a clear is among them, which it is whenever an unlock is |
| Sessions.HookAheadKeepsTheLock | README.md:1177 | the order decides: a raising consumer's hook queued before a driven transition leaves the committed transition's lock held and its registry entry behind, queued after it neither |
| Sessions.RollbackLeavesQueuedLocks | django_logic/commands.py:43-70 | a rollback of the whole transaction keeps exactly the locks whose unlocks it dropped |
| Meaning.ExecMeans | django_logic/commands.py:84-133 | the savepoint stack, identifiers and flags compute a reference meaning in which a block counts as a whole or not at all |
| Attempt.AttemptIsAllOrNothing | django_logic/background/runner.py:499-564 | the row records a success if and only if every side-effect write and the target would succeed, and then all are committed; otherwise none is, and exactly one error is recorded if the attempt is charged |
| Attempt.AttemptReleasesItsLocks | django_logic/background/runner.py:684-736 | whatever transitions the side-effects drove, the attempt leaves held exactly the locks whose unlocks stand behind a raising commit hook of the consumer's: none if there is no such hook |
| Connections.Connection.RunInSavepoint | django_logic/commands.py:84-133 | the in-place version computes the function of the proofs, silent rollback included |
| Connections.Connection.DeferUnlock | django_logic/commands.py:35-70 | queues the unlock, and a clear unless one is queued, then registers the entry |
| Connections.Connection.ReleaseDropped | django_logic/commands.py:136-151 | the index window is cut off and its locks released |
| Connections.Connection.RunCallbacks | django_logic/commands.py:228-273 | each hook in its own savepoint, exceptions contained |
| Connections.Connection.ChangeState | django_logic/transition.py:209-411 | a synchronous transition inside an open transaction with deferred unlock, statement by statement |
| Connections.Connection.RunBackgroundTransition | django_logic/background/runner.py:499-564 | the worker's attempt, statement by statement, equal to the function `AttemptIsAllOrNothing` is about; it raises after COMMIT exactly when a commit hook does |
| Table.BudgetFalls | django_logic/background/safety_nets.py:42-47 | the retries left over the whole table never rise when rows only go and lose retries |
| Journal.RowsFollow | django_logic/background/models.py:272-393 | from any point of a journal of inserts, row writes and sweeps on, each row there, also one inserted since the start, is what its own allowed writes make of it; a row that is gone had completed, and its key is not used again |
| Worker.Worker.ClaimNext | django_logic/background/pull.py:68-85 | the oldest claimable row of the served queues, or none exactly when there is none |
| Worker.Worker.RunAttemptInChild | django_logic/background/pull.py:111-182 | whatever the child does, the row completes or loses a retry |
| Worker.Worker.RunWorker | django_logic/background/pull.py:230-254 | the drain ends after at most as many attempts as the rows had retries left, and nothing was claimable in its queues at its last claim |
| Worker.Worker.WatchdogCandidates | django_logic/background/safety_nets.py:90-107 | the floor by the smallest timeout leaves no overdue row out |
| Worker.Worker.WatchdogStaleAttempts | django_logic/background/safety_nets.py:74-115 | every row chargeable at the scan is charged exactly once unless charging it raised, no row within its timeout is touched, and the result counts the rows that changed |
| Worker.Worker.DetectStuckTransitions | django_logic/background/safety_nets.py:118-169 | every row at the error limit is completed unless finalizing it raised, no other row is touched, and the result counts the rows that changed |
| Worker.DrainFollows | django_logic/background/pull.py:230-254 | across the whole drain every row moves only by allowed writes and none vanishes uncompleted |
| Cleanup.NewestExists | django_logic/background/safety_nets.py:188-201 | every key with a terminal failure has a newest one by completion time, then key |
| Cleanup.SweepAbsorbs | django_logic/background/safety_nets.py:202-208 | a later sweep alone does what both would have done |
| Cleanup.SweepsDelete | django_logic/background/safety_nets.py:172-211 | on any table, sweeps at increasing times delete exactly the completed rows that are old by the last of them and nobody's newest failure, leave the rest untouched, add none, and have nothing left to delete |
| Journal.FailuresStayExplained | django_logic/background/safety_nets.py:172-211 | a failure recorded at any point, of an old row or of one enqueued since: whatever is enqueued, completed and swept after it, it is still in the table, or a newer one of the same instance and process is |
| Journal.NewestFailureEverStays | django_logic/background/safety_nets.py:188-208 | the newest failure ever recorded for an instance and process is still there unchanged after any inserts, writes and sweeps |
| Worker.Worker.CleanupCompletedTransitions | django_logic/background/safety_nets.py:172-211 | the sweep in place, with its count of deleted rows |
| ProcessTree.WalkIsReachability | django_logic/process.py:238-268 | on any graph, cyclic or with shared classes, the walk enters exactly the classes reachable through valid ones, each once |
| ProcessTree.TreeCoversWalk | django_logic/process.py:307-322 | the unpruned walk covers every pruned one |
| ProcessTree.IterProcessTree | django_logic/process.py:307-322 | the generator with its mutated `seen` computes that walk and terminates |
| Resolution.IterAvailable | django_logic/process.py:211-268 | the availability generator yields the offers of that walk in order |
| Resolution.ResolvesIffAvailableOnce | django_logic/process.py:270-304 | an action resolves if and only if it is available at exactly one place of one class, however many nesting paths lead there; it is refused as several if and only if there are two places, be it one declaration in both |
| Resolution.SharedDeclarationsAreSeveral | django_logic/process.py:290-296 | a declaration shared by two valid nested classes, and one listed twice by its class, are refused as ambiguous with themselves |
| Resolution.ResolveTransition | django_logic/process.py:270-304 | the in-place resolution: the one offer of the walk, several, or none |
| Restore.FindTransition | django_logic/background/runner.py:1049-1129 | owner first, then by name when unambiguous |
| Restore.ValidateUniqueBackgroundNames | django_logic/process.py:373-445 | accepts exactly the graphs in which no class of the tree repeats a background name |
| Restore.RestoreFindsWhatEnqueueResolved | django_logic/background/runner.py:1132-1152 | on a validated graph with distinct paths the worker restores the very declaration enqueue resolved, whatever the conditions say by then |
| Restore.FallbackRestoresOnlyUniqueNames | django_logic/background/runner.py:1155-1175 | without the owner a transition is restored if and only if one background transition of the tree has the name |
| Codec.DecodeUndoesEncode | django_logic/background/serializers.py:77-144 | decoding undoes encoding for every value, nested to any depth, dicts holding the tag key included |
| Codec.EncodeIsInjective | django_logic/background/serializers.py:77-103 | two different values never share an encoding |
| JsonColumn.TripIsFaithfulIff | django_logic/background/serializers.py:147-163 | a storable value comes back equal, with its types, if and only if all its dicts have string keys and the column rewrites none of its floats |
| Kwargs.SerializeKwargs | django_logic/background/serializers.py:190-294 | the in-place version computes the checked encoding of the trimmed kwargs, or the same refusal |
| Kwargs.RestoreUser | django_logic/background/serializers.py:308-324 | the user read by primary key, None when deleted, absent when it had none |
| Kwargs.KwargsRoundTrip | django_logic/background/serializers.py:190-324 | accepted kwargs reach the worker in one explicit normal form if and only if every dict written has string keys and the column rewrites no float |
| Kwargs.StrictKwargsRoundTrip | django_logic/background/serializers.py:208-278 | in strict mode what is accepted arrives in normal form if and only if the column rewrites none of its floats |
| KwargsWitnesses.StrictAcceptsRewrittenFloats | django_logic/background/serializers.py:280-294 | a call with such a float is accepted, in strict mode too, and arrives as that integer |
| KwargsWitnesses.TenQuadrillionArrivesAsAnInteger | django_logic/background/serializers.py:280-294 | with PostgreSQL's reading of floats, `1e16` is accepted in strict mode and arrives as the integer 10000000000000000 |
| KwargsWitnesses.LenientTurnsKeysIntoText | django_logic/background/serializers.py:267-278 | for every storable key that is not a string: a dict with it is refused in strict mode, and otherwise accepted and arrives with the key as text |

## Left out

Hypotheses of the model, because the code gives no more:

- One process per state field: the lock key has no process name (`django_logic/state.py:66-70`) while rows are keyed by it. Enqueue runs at top level, not inside a caller's open transaction.
- `State.unlock` is one compare-and-delete step; the real triple is not atomic (`django_logic/state.py:96-102`). Cache operations do not fail.
- One clock that does not run backwards, read inside the step that stores it. Milliseconds stand for timestamps.
- In the protocol machine a worker that loses its row lock is dead: a reconnected worker that runs on without its lock is not modelled, nor are callbacks that re-enter the same instance.
- Side-effects do not write the state field they are transitioning, in the column or on the instance. A state write and the refresh after it are one step: what someone else writes between them is not what the refresh reads.
- A commit hook of the consumer's is modelled by whether it raises; what it does runs after COMMIT, in transactions of its own.
- In the protocol machine a synchronous transition commits its state write before it unlocks: autocommit, or deferred unlock inside a transaction.
- Cleanup orders nulls first, as PostgreSQL does.
- The instance and its row are on one database alias, so that one transaction covers both.
- ProtocolAttempt.AttemptIsMoves: the side-effects of an action leave its state column alone, and a BaseException, which the machine has as a crash, is excluded.
- Registry.ExecKeeps: the exact equality of registry and queue is for programs without atomic blocks of their own; such a block can roll back where the registry cannot see it, and there containment and accounting are proved.
- Sessions.CommitReleasesWhatItReaches: for the same programs; with the consumer's own atomic blocks `RegistryHeals` says which locks are released.
- Attempt.AttemptReleasesItsLocks: for side-effects without atomic blocks of their own, and not when a BaseException tears the attempt down.
- Worker.Worker.RunWorker: one worker, no new rows while it drains, and the row writes of attempts land.
- A BaseException out of the gate, a side-effect or a synchronous target write leaves the lock to its TTL, as the code does (`django_logic/commands.py:220`).

Not modelled:

- What the follow-up of a `NextTransition` does beyond its own call: at top level `Locking.State.FollowUp` has its availability check and how it ends; inside a transaction it is a program that comes after the drive, `Then(Drive(...), Then(check, Callbacks([...])))`.
- The attribute held in memory after a silently rolled-back target write, which `_handle_failure` reads as the previous value (`django_logic/background/runner.py:839`).
- Python's identification of `1`, `1.0` and `True` as one set element or dict key; iteration orders of sets and dict keys are a parameter.
- Timezone identity and `datetime.fold`, lost by the codec by its own account; scalars are opaque with a text form and a parser.
- The ORM, PostgreSQL, the cache backend, fork and waitpid, LISTEN/NOTIFY, sleeping, logging, message texts, settings, system checks, hook signatures, bindings and the testing helpers: foreign code, or code whose behaviour is local to one function.
- `run_pending`: one pass of the same claim rule, run inline.
