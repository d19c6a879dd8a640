/** What the invariant says over whole runs of the protocol. */
module ProtocolTheorems {
  import opened Wrappers
  import opened Messages
  import opened Protocol
  import opened ProtocolInvariant
  import opened ProtocolSteps
  import opened ProtocolRuns
  import opened ProtocolFrames
  import opened ProtocolCalm
  import opened ProtocolAcceptance

  // ----- where instances are, and what gets superseded -----

  /** Take the row that `a` committed at step `m`, after a recheck at step `k`. If
      nothing from outside has written its instance since that recheck and no
      caller there has lost its lock, then up to any `n` the persisted state is
      where the row's worker expects it as long as the row is open, the row is
      never completed as superseded, and it was accepted in a source. */
  lemma InstancesStayWhereEnqueueLeftThem(trace: seq<State>, steps: seq<Step>, k: nat, m: nat, n: nat, a: Actor)
    requires Run(trace, steps) && k < m < n < |trace|
    requires Looks(trace, steps, k, a) && IsCommit(trace[m], steps[m]) && steps[m].a == a
    requires PcOf(trace[m], a).inst == PcOf(trace[k], a).inst
    requires CalmBetween(trace, steps, k + 1, n, PcOf(trace[k], a).inst)
    ensures var pk, i := Pk(trace[m].nextPk), PcOf(trace[m], a).inst;
            && i in trace[m].db && trace[m].db[i] in PcOf(trace[m], a).decl.sources
            && (pk in trace[n].rows ==>
                  && trace[n].rows[pk].inst == i && trace[n].rows[pk].decl == PcOf(trace[m], a).decl
                  && trace[n].rows[pk].message.note != SupersededNote)
            && (Uncompleted(trace[n], pk) ==> i in trace[n].db && AtRest(trace[n].rows[pk].decl, trace[n].db[i]))
  {
    var pk, i := Pk(trace[m].nextPk), PcOf(trace[m], a).inst;
    CalmSinceLook(trace, steps, k, m, a);
    RunKeeps(trace, steps, m);
    CommitIsCommitted(trace[m], a);
    CommitAccepts(trace[m], trace[m + 1], a);
    CommitUndisturbed(trace[m], trace[m + 1], a, i);
    CalmRunStep(trace, steps, m, i, pk);
    CalmKeeps(trace, steps, m + 1, n, i, pk);
    RowPersists(trace, steps, m + 1, n, pk);
    UndisturbedIsInPlace(trace, steps, n, pk, i);
  }

  /** Up to `n`, nobody on the instance is disturbed since the look at `k`. */
  lemma CalmSinceLook(trace: seq<State>, steps: seq<Step>, k: nat, n: nat, a: Actor)
    requires Run(trace, steps) && k < n < |trace| && Looks(trace, steps, k, a)
    requires CalmBetween(trace, steps, k + 1, n, PcOf(trace[k], a).inst)
    requires LocksKept(trace[n], PcOf(trace[k], a).inst)
    ensures InSection(PcOf(trace[k], a)) && Untouched(trace[n], PcOf(trace[k], a).inst)
  {
    var i := PcOf(trace[k], a).inst;
    LookStartsCalm(trace, steps, k, a);
    assert k + 1 < n ==> Calm(trace[k + 1], steps[k + 1], i);
    forall j | k + 1 <= j < n && Untouched(trace[j], i) ensures Untouched(trace[j + 1], i) {
      CalmCallersStep(trace, steps, j, i);
    }
    CalmCallers(trace, k + 1, n, i);
  }

  lemma {:induction false} CalmCallers(trace: seq<State>, k: nat, n: nat, i: Inst)
    requires StaysUntouched(trace, k, n, i) && k <= n < |trace| && Untouched(trace[k], i)
    ensures Untouched(trace[n], i)
  {
    if k < n { CalmCallers(trace, k, n - 1, i); }
  }

  ghost predicate StaysUntouched(trace: seq<State>, k: nat, n: nat, i: Inst) {
    forall j :: k <= j < n && j + 1 < |trace| && Untouched(trace[j], i) ==> Untouched(trace[j + 1], i)
  }

  lemma CalmCallersStep(trace: seq<State>, steps: seq<Step>, n: nat, i: Inst)
    requires Run(trace, steps) && n < |steps| && Calm(trace[n], steps[n], i) && Untouched(trace[n], i)
    ensures Untouched(trace[n + 1], i)
  {
    RunKeeps(trace, steps, n);
    CalmStep(trace[n], steps[n], i);
  }

  lemma CommitUndisturbed(s: State, r: State, a: Actor, i: Inst)
    requires Declared(s) && RowCommitted(s, r, a) && PcOf(s, a).inst == i && Untouched(s, i)
    ensures RowUndisturbed(s, Pk(s.nextPk), i) && Pk(s.nextPk) in r.rows
    ensures r.rows[Pk(s.nextPk)].inst == i && r.rows[Pk(s.nextPk)].decl == PcOf(s, a).decl
    ensures a !in s.touched
  {
    assert a in s.pcs && InSection(s.pcs[a]) && s.pcs[a].inst == i;
  }

  lemma UndisturbedIsInPlace(trace: seq<State>, steps: seq<Step>, n: nat, pk: Pk, i: Inst)
    requires Run(trace, steps) && n < |trace| && RowUndisturbed(trace[n], pk, i)
    requires pk in trace[n].rows ==> trace[n].rows[pk].inst == i
    ensures pk in trace[n].rows ==> trace[n].rows[pk].message.note != SupersededNote
    ensures Uncompleted(trace[n], pk) ==> i in trace[n].db && AtRest(trace[n].rows[pk].decl, trace[n].db[i])
  {
    RunKeeps(trace, steps, n);
  }

  /** A row keeps its instance and its declaration, and its key. */
  predicate SameRow(s: State, pk: Pk, i: Inst, decl: Decl) {
    pk.n < s.nextPk && (pk in s.rows ==> s.rows[pk].inst == i && s.rows[pk].decl == decl)
  }

  lemma {:induction false} SameRowThroughout(trace: seq<State>, steps: seq<Step>, m: nat, n: nat, pk: Pk, i: Inst, decl: Decl)
    requires RowsFramedThroughout(trace, steps) && m <= n < |trace| && SameRow(trace[m], pk, i, decl)
    ensures SameRow(trace[n], pk, i, decl)
  {
    if m < n {
      SameRowThroughout(trace, steps, m, n - 1, pk, i, decl);
      assert RowsFramed(trace[n - 1], trace[n], steps[n - 1]);
    }
  }

  lemma RowPersists(trace: seq<State>, steps: seq<Step>, m: nat, n: nat, pk: Pk)
    requires Run(trace, steps) && m <= n < |trace| && pk in trace[m].rows
    ensures SameRow(trace[n], pk, trace[m].rows[pk].inst, trace[m].rows[pk].decl)
  {
    RowsOfRun(trace, steps);
    KeysAreSpent(trace, steps, m, pk);
    SameRowThroughout(trace, steps, m, n, pk, trace[m].rows[pk].inst, trace[m].rows[pk].decl);
  }

  // ----- the queue alone -----

  /** One uncompleted row per instance and process, at every moment of every run. */
  lemma OneRowAtATime(trace: seq<State>, steps: seq<Step>, n: nat, p: Pk, q: Pk)
    requires Run(trace, steps) && n < |trace|
    requires Uncompleted(trace[n], p) && Uncompleted(trace[n], q) && trace[n].rows[p].inst == trace[n].rows[q].inst
    ensures p == q
  {
    RunKeeps(trace, steps, n);
  }

  /** No row is disturbed, and no enqueue between its recheck and its commit. */
  ghost predicate QueueOnly(s: State) {
    && s.disturbed == {}
    && forall a :: a in s.pcs && Rechecking(s.pcs[a]) ==> a !in s.touched
  }

  lemma QueueStep(s: State, t: Step)
    requires Inv(s) && Enabled(s, t) && !MovesStateOutsideTheQueue(t) && QueueOnly(s)
    ensures QueueOnly(Apply(s, t))
  {
    var r := Apply(s, t);
    StepFramed(s, t);
    if !IsEnvironment(t) { OnlyTheRecheckReadies(s, t); }
    QueueFramed(s, r, t);
  }

  lemma QueueFramed(s: State, r: State, t: Step)
    requires SlotsOwned(s) && QueueOnly(s) && !MovesStateOutsideTheQueue(t)
    requires DisturbancesFramed(s, r, t) && ActorsFramed(s, r, t)
    requires !IsEnvironment(t) && Rechecking(PcOf(r, t.a)) ==> t.a !in r.touched
    ensures QueueOnly(r)
  {
    forall a | a in r.pcs && Rechecking(r.pcs[a]) ensures a !in r.touched {
      if IsEnvironment(t) || a != t.a {
        assert PcOf(r, a) == PcOf(s, a);
        assert HasSlot(s.pcs[a]);
      }
    }
    forall pk ensures pk !in r.disturbed {}
  }

  lemma {:induction false} QueueThroughout(trace: seq<State>, steps: seq<Step>, n: nat)
    requires Run(trace, steps) && n < |trace|
    requires forall k :: 0 <= k < n ==> !MovesStateOutsideTheQueue(steps[k])
    ensures QueueOnly(trace[n])
  {
    if n > 0 {
      QueueThroughout(trace, steps, n - 1);
      QueueRunStep(trace, steps, n - 1);
    }
  }

  lemma QueueRunStep(trace: seq<State>, steps: seq<Step>, n: nat)
    requires Run(trace, steps) && n < |steps| && !MovesStateOutsideTheQueue(steps[n]) && QueueOnly(trace[n])
    ensures QueueOnly(trace[n + 1])
  {
    RunKeeps(trace, steps, n);
    QueueStep(trace[n], steps[n]);
  }

  /** Among enqueues and workers alone the acceptance holds whatever the lock
      does, every lock may expire under its holder: a row commits only while the
      persisted state is a source, open rows are in place, and none is superseded. */
  lemma QueueAloneNeedsNoLock(trace: seq<State>, steps: seq<Step>, n: nat)
    requires Run(trace, steps) && n < |trace|
    requires forall k :: 0 <= k < n ==> !MovesStateOutsideTheQueue(steps[k])
    ensures n < |steps| && IsCommit(trace[n], steps[n]) ==>
              var pc := PcOf(trace[n], steps[n].a);
              && pc.inst in trace[n].db && trace[n].db[pc.inst] in pc.decl.sources && NoOpenRow(trace[n], pc.inst)
    ensures forall pk :: pk in trace[n].rows ==> trace[n].rows[pk].message.note != SupersededNote
    ensures forall pk :: Uncompleted(trace[n], pk) ==>
              var row := trace[n].rows[pk]; row.inst in trace[n].db && AtRest(row.decl, trace[n].db[row.inst])
  {
    RunKeeps(trace, steps, n);
    QueueThroughout(trace, steps, n);
    if n < |steps| && IsCommit(trace[n], steps[n]) { QueueCommits(trace[n], steps[n].a); }
  }

  lemma QueueCommits(s: State, a: Actor)
    requires Inv(s) && QueueOnly(s) && EnqueueEnabled(s, PcOf(s, a), CommitRow)
    ensures var pc := PcOf(s, a); pc.inst in s.db && s.db[pc.inst] in pc.decl.sources && NoOpenRow(s, pc.inst)
  {
    assert CheckHolds(s, a, s.pcs[a]);
    assert HasSlot(s.pcs[a]);
  }

  // ----- at most once -----

  /** Row `pk` is gone, or is exactly `row`, and its key will not come back. */
  predicate Frozen(s: State, pk: Pk, row: Row) {
    pk.n < s.nextPk && (pk in s.rows ==> s.rows[pk] == row)
  }

  lemma KeysAreSpent(trace: seq<State>, steps: seq<Step>, n: nat, pk: Pk)
    requires Run(trace, steps) && n < |trace| && pk in trace[n].rows
    ensures pk.n < trace[n].nextPk
  {
    RunKeeps(trace, steps, n);
  }

  lemma FrozenStays(s: State, r: State, t: Step, pk: Pk, row: Row)
    requires RowsFramed(s, r, t) && row.message.isCompleted && Frozen(s, pk, row)
    ensures Frozen(r, pk, row)
  {}

  lemma {:induction false} FrozenThroughout(trace: seq<State>, steps: seq<Step>, j: nat, n: nat, pk: Pk, row: Row)
    requires RowsFramedThroughout(trace, steps) && j <= n < |trace|
    requires row.message.isCompleted && Frozen(trace[j], pk, row)
    ensures Frozen(trace[n], pk, row)
  {
    if j < n {
      FrozenThroughout(trace, steps, j, n - 1, pk, row);
      FrozenStays(trace[n - 1], trace[n], steps[n - 1], pk, row);
    }
  }

  /** Completion is never undone: a completed row never changes again, until cleanup deletes it for good. */
  lemma CompletedForGood(trace: seq<State>, steps: seq<Step>, j: nat, n: nat, pk: Pk)
    requires Run(trace, steps) && j <= n < |trace|
    requires pk in trace[j].rows && trace[j].rows[pk].message.isCompleted
    ensures Frozen(trace[n], pk, trace[j].rows[pk])
  {
    RowsOfRun(trace, steps);
    KeysAreSpent(trace, steps, j, pk);
    FrozenThroughout(trace, steps, j, n, pk, trace[j].rows[pk]);
  }

  /** The step that commits side-effects and target together. */
  predicate Lands(s: State, t: Step, pk: Pk) {
    t.Work? && t.work.Succeed? && PcOf(s, t.a).Holding? && PcOf(s, t.a).pk == pk
  }

  /** A row's side-effects and target commit at most once, and never once the
      row was completed in any way, whatever retries, crashes, racing workers
      and safety nets the run holds. */
  lemma EffectsLandAtMostOnce(trace: seq<State>, steps: seq<Step>, j: nat, n: nat, pk: Pk)
    requires Run(trace, steps) && j <= n < |steps| && pk in trace[j].rows
    requires Lands(trace[n], steps[n], pk)
    ensures !trace[j].rows[pk].message.isCompleted
    ensures j < n ==> !Lands(trace[j], steps[j], pk)
  {
    RunKeeps(trace, steps, n);
    RunKeeps(trace, steps, j);
    assert HoldsRow(trace[n], steps[n].a, PcOf(trace[n], steps[n].a).role, pk);
    if trace[j].rows[pk].message.isCompleted {
      CompletedForGood(trace, steps, j, n, pk);
    }
    if j < n && Lands(trace[j], steps[j], pk) {
      LandingCompletes(trace[j], steps[j], pk);
      CompletedForGood(trace, steps, j + 1, n, pk);
    }
  }

  lemma LandingCompletes(s: State, t: Step, pk: Pk)
    requires Present(s) && Enabled(s, t) && Lands(s, t, pk)
    ensures var r := Apply(s, t); pk in r.rows && r.rows[pk].message.isCompleted
  {
    SettledShape(s, t.a, pk, Op.Succeed);
  }

  // ----- who moves the state -----

  /** A worker's or safety net's write of the state: the target with the row's
      success, `failed_state` with its terminal failure, nothing else. */
  ghost predicate RowMoved(s: State, r: State, pk: Pk, v: string) {
    && Uncompleted(s, pk) && pk in r.rows && r.rows[pk].message.isCompleted
    && var row := s.rows[pk];
       || (row.decl.target == Some(v) && r.rows[pk].message == row.message.Completed(true, false, s.now))
       || (row.decl.failedState == Some(v) && r.rows[pk].message.endedInFailure
           && r.rows[pk].message.errorsCount >= row.message.errorsCount)
  }

  ghost predicate HolderMoves(s: State, r: State, pk: Pk)
    requires pk in s.rows && s.rows[pk].inst in s.db
  {
    var row := s.rows[pk];
    || r.db == s.db
    || (row.decl.target.Some? && r.db == s.db[row.inst := row.decl.target.value] && RowMoved(s, r, pk, row.decl.target.value))
    || (row.decl.failedState.Some? && r.db == s.db[row.inst := row.decl.failedState.value]
        && RowMoved(s, r, pk, row.decl.failedState.value))
  }

  lemma LandingMoves(s: State, a: Actor)
    requires Present(s) && RowsHeld(s) && WorkEnabled(s, PcOf(s, a), WorkMove.Succeed)
    ensures var pk, r := PcOf(s, a).pk, HolderApply(s, a, PcOf(s, a), WorkMove.Succeed);
            && HolderMoves(s, r, pk)
            && pk in r.rows && r.rows[pk].message == s.rows[pk].message.Completed(true, false, s.now)
            && (s.rows[pk].decl.target.Some? ==> r.db == s.db[s.rows[pk].inst := s.rows[pk].decl.target.value])
            && r.rowLock == s.rowLock - {pk}
  {
    var pk := PcOf(s, a).pk;
    assert HoldsRow(s, a, PcOf(s, a).role, pk);
    SettledShape(s, a, pk, Op.Succeed);
  }

  lemma FailureMoves(s: State, a: Actor, permanent: bool, accepted: bool)
    requires Present(s) && RowsHeld(s) && WorkEnabled(s, PcOf(s, a), FailAttempt(permanent, accepted))
    ensures HolderMoves(s, HolderApply(s, a, PcOf(s, a), FailAttempt(permanent, accepted)), PcOf(s, a).pk)
  {
    var pk := PcOf(s, a).pk;
    assert HoldsRow(s, a, PcOf(s, a).role, pk);
    SettledShape(s, a, pk, Fail(permanent));
  }

  lemma FinishMoves(s: State, a: Actor, accepted: bool)
    requires Present(s) && RowsHeld(s) && WorkEnabled(s, PcOf(s, a), Finish(accepted))
    ensures HolderMoves(s, HolderApply(s, a, PcOf(s, a), Finish(accepted)), PcOf(s, a).pk)
  {
    var pc := PcOf(s, a);
    assert HoldsRow(s, a, pc.role, pc.pk);
    SettledShape(s, a, pc.pk, FinalOp(pc.role, false));
  }

  lemma LooseWorkMovesNothing(s: State, a: Actor, m: WorkMove)
    requires Present(s) && WorkEnabled(s, PcOf(s, a), m) && !PcOf(s, a).Holding?
    ensures WorkApply(s, a, PcOf(s, a), m).db == s.db
  {
    if m.Take? { TakeWorked(s, a); }
  }

  lemma OtherHolderMovesNothing(s: State, a: Actor, m: WorkMove)
    requires Present(s) && WorkEnabled(s, PcOf(s, a), m) && PcOf(s, a).Holding?
    requires !m.Succeed? && !m.FailAttempt? && !m.Finish?
    ensures HolderApply(s, a, PcOf(s, a), m).db == s.db
  {
    var pc := PcOf(s, a);
    SettledShape(s, a, pc.pk, if pc.role.Attempt? then RestoreFail else FinalOp(pc.role, false));
    SettledShape(s, a, pc.pk, FinalOp(pc.role, true));
  }

  lemma OtherWorkMovesNothing(s: State, a: Actor, m: WorkMove)
    requires Present(s) && WorkEnabled(s, PcOf(s, a), m)
    requires !m.Succeed? && !m.FailAttempt? && !m.Finish?
    ensures WorkApply(s, a, PcOf(s, a), m).db == s.db
  {
    if PcOf(s, a).Holding? { OtherHolderMovesNothing(s, a, m); } else { LooseWorkMovesNothing(s, a, m); }
  }

  ghost predicate SectionMoves(s: State, r: State, t: Step)
    requires Enabled(s, t) && (t.Enq? || t.Sync? || t.Act?)
  {
    var pc := PcOf(s, t.a);
    || r.db == s.db
    || (IsCommit(s, t) && pc.decl.inProgress.Some? && r.db == s.db[pc.inst := pc.decl.inProgress.value])
    || (t.Sync? && t.sync.WriteState? && pc.passed && r.db == s.db[pc.inst := t.sync.state])
    || (t.Act? && t.act.WriteFailed? && pc.probed && r.db == s.db[pc.inst := pc.failed])
  }

  lemma SyncWrites(s: State, a: Actor, m: SyncMove)
    requires Present(s) && Enabled(s, Sync(a, m))
    ensures SectionMoves(s, SyncApply(s, a, PcOf(s, a), m), Sync(a, m))
  {}

  lemma ActionWrites(s: State, a: Actor, m: ActionMove)
    requires Present(s) && Enabled(s, Act(a, m))
    ensures SectionMoves(s, ActionApply(s, a, PcOf(s, a), m), Act(a, m))
  {}

  lemma EnqueueWrites(s: State, a: Actor, m: EnqueueMove)
    requires Present(s) && Enabled(s, Enq(a, m))
    ensures SectionMoves(s, EnqueueApply(s, a, PcOf(s, a), m), Enq(a, m))
  {
    if m.CommitRow? { CommittedShape(s, a, PcOf(s, a)); } else { EnqueueMoves(s, a, m); }
  }

  /** Who may have moved the state of `i`, and where. */
  ghost predicate MovedByOwner(s: State, r: State, t: Step, i: Inst)
    requires i in r.db
  {
    || t == ExternalWrite(i, r.db[i])
    || (!IsEnvironment(t) && var pc := PcOf(s, t.a);
          || (IsCommit(s, t) && pc.inst == i && pc.decl.inProgress == Some(r.db[i]))
          || (t.Sync? && pc.Syncing? && pc.passed && pc.inst == i && t.sync == WriteState(r.db[i]))
          || (t.Act? && pc.Acting? && pc.probed && pc.inst == i && t.act.WriteFailed? && pc.failed == r.db[i])
          || (t.Work? && pc.Holding? && pc.pk in s.rows && s.rows[pc.pk].inst == i && RowMoved(s, r, pc.pk, r.db[i])))
  }

  lemma SectionMovesByOwner(s: State, r: State, t: Step, i: Inst)
    requires Enabled(s, t) && (t.Enq? || t.Sync? || t.Act?) && SectionMoves(s, r, t) && i in s.db
    ensures i in r.db && (r.db[i] != s.db[i] ==> MovedByOwner(s, r, t, i))
  {}

  lemma WorkMovesByOwner(s: State, r: State, t: Step, i: Inst)
    requires Enabled(s, t) && t.Work? && i in s.db
    requires var pc := PcOf(s, t.a);
             r.db == s.db || (pc.Holding? && pc.pk in s.rows && s.rows[pc.pk].inst in s.db && HolderMoves(s, r, pc.pk))
    ensures i in r.db && (r.db[i] != s.db[i] ==> MovedByOwner(s, r, t, i))
  {}

  /** Every change of a persisted state in any run has one of five authors: an
      enqueue's commit, to the in-progress state; the completion of the row that
      is open on the instance, to its target on success or its `failed_state`
      on a terminal failure; a synchronous transition past its gate; a failing
      action past its probe; or something outside. */
  lemma StatesMoveByTheirOwners(trace: seq<State>, steps: seq<Step>, n: nat, i: Inst)
    requires Run(trace, steps) && n < |steps| && i in trace[n].db
    ensures i in trace[n + 1].db
    ensures trace[n + 1].db[i] != trace[n].db[i] ==> MovedByOwner(trace[n], trace[n + 1], steps[n], i)
  {
    RunKeeps(trace, steps, n);
    StepMovesByOwner(trace[n], steps[n], i);
  }

  lemma StepMovesByOwner(s: State, t: Step, i: Inst)
    requires Present(s) && RowsHeld(s) && Enabled(s, t) && i in s.db
    ensures i in Apply(s, t).db
    ensures Apply(s, t).db[i] != s.db[i] ==> MovedByOwner(s, Apply(s, t), t, i)
  {
    if t.Enq? || t.Sync? || t.Act? {
      SectionWrites(s, t);
      SectionMovesByOwner(s, Apply(s, t), t, i);
    } else if t.Work? {
      WorkMoves(s, t.a, t.work);
      WorkMovesByOwner(s, Apply(s, t), t, i);
    } else if !t.ExternalWrite? {
      OthersMoveNothing(s, t);
    }
  }

  lemma SectionWrites(s: State, t: Step)
    requires Present(s) && Enabled(s, t) && (t.Enq? || t.Sync? || t.Act?)
    ensures SectionMoves(s, Apply(s, t), t)
  {
    if t.Enq? { EnqueueWrites(s, t.a, t.enq); }
    else if t.Sync? { SyncWrites(s, t.a, t.sync); }
    else { ActionWrites(s, t.a, t.act); }
  }

  lemma WorkMoves(s: State, a: Actor, m: WorkMove)
    requires Present(s) && RowsHeld(s) && Enabled(s, Work(a, m))
    ensures var r, pc := Apply(s, Work(a, m)), PcOf(s, a);
            r.db == s.db || (pc.Holding? && HolderMoves(s, r, pc.pk))
  {
    match m
    case Succeed => LandingMoves(s, a);
    case FailAttempt(permanent, accepted) => FailureMoves(s, a, permanent, accepted);
    case Finish(accepted) => FinishMoves(s, a, accepted);
    case _ => OtherWorkMovesNothing(s, a, m);
  }

  lemma BeginMovesNothing(s: State, a: Actor, b: Beginning)
    requires Present(s) && Enabled(s, Begin(a, b))
    ensures Apply(s, Begin(a, b)).db == s.db
  {}

  lemma OthersMoveNothing(s: State, t: Step)
    requires Present(s) && Enabled(s, t)
    requires !t.Enq? && !t.Sync? && !t.Act? && !t.Work? && !t.ExternalWrite?
    ensures Apply(s, t).db == s.db
  {
    match t
    case Begin(a, b) => BeginMovesNothing(s, a, b);
    case Crash(a, noticed) => CrashShape(s, a, noticed);
    case _ =>
  }

  // ----- rows over time -----

  predicate NoDeathRecorded(events: seq<Event>) {
    forall i :: 0 <= i < |events| ==> !events[i].op.Death?
  }

  /** No dead zone in any run: an uncompleted row is in the stuck finalizer's
      scan or becomes claimable with time; one called stranded is already one or
      the other. Until a child death is recorded, an uncompleted row stays
      below the error limit and a completed one at most reaches it. And one
      attempt is charged at most one timeout. */
  lemma RowsNeverFallBetween(trace: seq<State>, steps: seq<Step>, n: nat, pk: Pk, held: bool)
    requires Run(trace, steps) && n < |trace| && pk in trace[n].rows
    ensures var s, m := trace[n], trace[n].rows[pk].message;
            && (!m.isCompleted ==>
                  && (m.InStuckScan(s.cfg) || forall t :: t > m.modified + s.cfg.retryMs ==> m.Claimable(s.cfg, t))
                  && (forall t :: m.RetryStatus(s.cfg, held, t) == Stranded ==> m.InStuckScan(s.cfg) || m.Claimable(s.cfg, t)))
            && pk in s.events && pk in s.births
            && (NoDeathRecorded(s.events[pk]) ==> WithinBudget(m, s.cfg))
            && (forall stamp :: Charges(s.births[pk].message, s.events[pk], s.cfg, stamp) <= 1)
            && (m.lastErrorDt.Some? ==> m.lastErrorDt.value <= m.modified <= s.now)
  {
    RunKeeps(trace, steps, n);
    var s := trace[n];
    assert RowHistorical(s, pk);
    var b := s.births[pk].message;
    HistoryKeeps(b, s.events[pk], s.cfg, b.created);
    NoDeadZone(b, s.events[pk], s.cfg, b.created, held);
    forall stamp ensures Charges(b, s.events[pk], s.cfg, stamp) <= 1 {
      OneChargePerStamp(b, s.events[pk], s.cfg, b.created, stamp);
    }
  }

  /** A stamp is never followed by an older one. */
  predicate StampedSince(s: State, pk: Pk, at: int) {
    && pk.n < s.nextPk && at <= s.now
    && (pk in s.rows ==> s.rows[pk].message.startedAt.Some? && s.rows[pk].message.startedAt.value >= at)
  }

  lemma {:induction false} StampStays(trace: seq<State>, steps: seq<Step>, k: nat, n: nat, pk: Pk, at: int)
    requires RowsFramedThroughout(trace, steps) && k <= n < |trace| && StampedSince(trace[k], pk, at)
    ensures StampedSince(trace[n], pk, at)
  {
    if k < n {
      StampStays(trace, steps, k, n - 1, pk, at);
      StampStep(trace[n - 1], trace[n], steps[n - 1], pk, at);
    }
  }

  lemma StampStep(s: State, r: State, t: Step, pk: Pk, at: int)
    requires RowsFramed(s, r, t) && StampedSince(s, pk, at)
    ensures StampedSince(r, pk, at)
  {
    if pk in r.rows && pk in s.rows { assert RowFramed(s.rows[pk], r.rows[pk], s.now); }
  }

  lemma StampIsStamped(s: State, b: Actor, pk: Pk)
    requires Present(s) && Declared(s) && Enabled(s, Begin(b, StampAttempt(pk)))
    ensures StampedSince(Apply(s, Begin(b, StampAttempt(pk))), pk, s.now)
  {}

  /** When the watchdog charges a row, or takes it to finalize it, nobody holds it
      and every attempt ever stamped on it, however lately, has outlived its
      timeout: an attempt that started after the watchdog's scan is spared. */
  lemma WatchdogSparesLiveAttempts(trace: seq<State>, steps: seq<Step>, k: nat, n: nat, a: Actor, b: Actor, pk: Pk)
    requires Run(trace, steps) && k < n < |steps|
    requires steps[n] == Begin(a, WatchdogCharge(pk)) || steps[n] == Begin(a, WatchdogTake(pk))
    requires steps[k] == Begin(b, StampAttempt(pk))
    ensures var m := trace[n].rows[pk].message;
            m.timeoutSeconds.Some? && trace[k].now + m.timeoutSeconds.value * 1000 < trace[n].now
    ensures forall c :: c in trace[n].pcs && trace[n].pcs[c].Holding? ==> trace[n].pcs[c].pk != pk
  {
    StampStands(trace, steps, k, n, b, pk);
    RunKeeps(trace, steps, n);
    ChargesOverdue(trace[n], a, pk);
    FreeIsUnheld(trace[n], pk);
  }

  lemma ChargesOverdue(s: State, a: Actor, pk: Pk)
    requires Enabled(s, Begin(a, WatchdogCharge(pk))) || Enabled(s, Begin(a, WatchdogTake(pk)))
    ensures Free(s, pk) && s.rows[pk].message.Overdue(s.now)
  {}

  lemma StampStands(trace: seq<State>, steps: seq<Step>, k: nat, n: nat, b: Actor, pk: Pk)
    requires Run(trace, steps) && k < n < |trace| && steps[k] == Begin(b, StampAttempt(pk))
    ensures StampedSince(trace[n], pk, trace[k].now)
  {
    StampTaken(trace, steps, k, b, pk);
    RowsOfRun(trace, steps);
    StampStays(trace, steps, k + 1, n, pk, trace[k].now);
  }

  lemma StampTaken(trace: seq<State>, steps: seq<Step>, k: nat, b: Actor, pk: Pk)
    requires Run(trace, steps) && k < |steps| && steps[k] == Begin(b, StampAttempt(pk))
    ensures StampedSince(trace[k + 1], pk, trace[k].now)
  {
    RunKeeps(trace, steps, k);
    StampIsStamped(trace[k], b, pk);
  }

  lemma FreeIsUnheld(s: State, pk: Pk)
    requires RowsHeld(s) && Free(s, pk)
    ensures forall b :: b in s.pcs && s.pcs[b].Holding? ==> s.pcs[b].pk != pk
  {
    forall b | b in s.pcs && s.pcs[b].Holding? ensures s.pcs[b].pk != pk {
      assert HoldsRow(s, b, s.pcs[b].role, s.pcs[b].pk);
    }
  }

  // ----- gates -----

  predicate PastGate(pc: Pc) {
    (pc.Syncing? && pc.passed) || (pc.Acting? && pc.probed)
  }

  /** From its last look at `k` to the state write, with nothing from outside and
      every lock kept since, a synchronous transition past its gate shares its
      instance with no uncompleted row and no worker, and the state can have
      left its sources only to where a row open at its read could take it; a
      failing action that may write has the instance to itself as well. */
  lemma GatesExcludeWorkers(trace: seq<State>, steps: seq<Step>, k: nat, n: nat, a: Actor)
    requires Run(trace, steps) && k < n < |trace| && Looks(trace, steps, k, a)
    requires CalmBetween(trace, steps, k + 1, n, PcOf(trace[k], a).inst) && LocksKept(trace[n], PcOf(trace[k], a).inst)
    requires PastGate(PcOf(trace[n], a)) && PcOf(trace[n], a).inst == PcOf(trace[k], a).inst
    ensures var s, pc := trace[n], PcOf(trace[n], a);
            && NoOpenRow(s, pc.inst)
            && (forall b :: b in s.pcs && s.pcs[b].Holding? && s.pcs[b].pk in s.rows ==> s.rows[s.pcs[b].pk].inst != pc.inst)
            && (pc.Syncing? ==> pc.inst in s.db && (s.db[pc.inst] in pc.decl.sources || Some(s.db[pc.inst]) in pc.outcomes))
  {
    CalmSinceLook(trace, steps, k, n, a);
    RunKeeps(trace, steps, n);
    GateHolds(trace[n], a);
  }

  lemma GateHolds(s: State, a: Actor)
    requires Inv(s) && PastGate(PcOf(s, a)) && HoldsLock(s, PcOf(s, a)) && a !in s.touched
    ensures var pc := PcOf(s, a);
            && NoOpenRow(s, pc.inst)
            && (forall b :: b in s.pcs && s.pcs[b].Holding? && s.pcs[b].pk in s.rows ==> s.rows[s.pcs[b].pk].inst != pc.inst)
            && (pc.Syncing? ==> pc.inst in s.db && (s.db[pc.inst] in pc.decl.sources || Some(s.db[pc.inst]) in pc.outcomes))
  {
    assert CheckHolds(s, a, s.pcs[a]);
    forall b | b in s.pcs && s.pcs[b].Holding? && s.pcs[b].pk in s.rows ensures s.rows[s.pcs[b].pk].inst != s.pcs[a].inst {
      assert HoldsRow(s, b, s.pcs[b].role, s.pcs[b].pk);
    }
  }

  // ----- locks -----

  /** A token leaves the cache by the unlock of the very acquisition it was
      issued to, or by its expiry; nothing ever replaces it in place. */
  lemma TokensAreTheirOwners(trace: seq<State>, steps: seq<Step>, n: nat, i: Inst)
    requires Run(trace, steps) && n < |steps| && i in trace[n].lock
    ensures i in trace[n + 1].lock ==> trace[n + 1].lock[i] == trace[n].lock[i]
    ensures i !in trace[n + 1].lock ==>
              var s, t := trace[n], steps[n];
              || (t.Unlock? && PcOf(s, t.a) == Releasing(i, s.lock[i])
                  && forall b :: b in s.pcs && b != t.a && InSection(s.pcs[b]) ==> s.pcs[b].tok != s.lock[i])
              || (t.ExpireHeld? && PcOf(s, t.a).inst == i)
              || t == ExpireOrphan(i)
  {
    StepOfRun(trace, steps, n);
  }

  lemma OwnMove(s: State, t: Step)
    requires Present(s) && Enabled(s, t) && !IsEnvironment(t) && InSection(PcOf(s, t.a))
    ensures var r, pc := Apply(s, t), PcOf(s, t.a);
            if InSection(PcOf(r, t.a)) then PcOf(r, t.a).inst == pc.inst && PcOf(r, t.a).tok == pc.tok
            else t.Crash? || (t.Unlock? && !(pc.inst in r.lock && r.lock[pc.inst] == pc.tok))
  {
    match t
    case Enq(a, m) => if !m.CommitRow? { EnqueueMoves(s, a, m); }
    case Sync(a, m) => SyncMoves(s, a, m);
    case Act(a, m) => ActionMoves(s, a, m);
    case Crash(a, noticed) => CrashShape(s, a, noticed);
    case _ =>
  }

  /** Whoever took a lock gives it back: every way out of the section but a
      crash goes through its unlock, and after it its token is gone. */
  lemma SectionsEndUnlocked(trace: seq<State>, steps: seq<Step>, n: nat, a: Actor)
    requires Run(trace, steps) && n < |steps| && InSection(PcOf(trace[n], a))
    ensures var s, r, pc := trace[n], trace[n + 1], PcOf(trace[n], a);
            if InSection(PcOf(r, a)) then PcOf(r, a).inst == pc.inst && PcOf(r, a).tok == pc.tok
            else
              || (steps[n] == Unlock(a) && !(pc.inst in r.lock && r.lock[pc.inst] == pc.tok))
              || (steps[n].Crash? && steps[n].a == a)
  {
    StepOfRun(trace, steps, n);
    if !IsEnvironment(steps[n]) && steps[n].a == a { OwnMove(trace[n], steps[n]); }
  }
}
