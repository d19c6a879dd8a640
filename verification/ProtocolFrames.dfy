/** What each step of the protocol leaves alone. */
module ProtocolFrames {
  import opened Wrappers
  import opened Messages
  import opened Protocol
  import opened ProtocolInvariant
  import opened ProtocolRuns

  predicate IsCommit(s: State, t: Step) {
    t.Enq? && t.enq.CommitRow? && EnqueueEnabled(s, PcOf(s, t.a), CommitRow)
  }

  predicate MovesStateOutsideTheQueue(t: Step) {
    t.ExternalWrite? || (t.Sync? && t.sync.WriteState?) || (t.Act? && t.act.WriteFailed?)
  }

  predicate IsEnvironment(t: Step) {
    t.Sweep? || t.ExternalWrite? || t.ExpireHeld? || t.ExpireOrphan? || t.Tick?
  }

  /** A row keeps its instance, its declaration and its timeout, and is stamped with the present if at all. */
  predicate RowFramed(was: Row, row: Row, now: int) {
    && row.inst == was.inst && row.decl == was.decl
    && (was.message.isCompleted ==> row == was)
    && row.message.timeoutSeconds == was.message.timeoutSeconds
    && (row.message.startedAt == was.message.startedAt || row.message.startedAt == Some(now))
  }

  /** Completed rows are not written, keys are not reused. */
  ghost predicate RowsFramed(s: State, r: State, t: Step) {
    && s.nextPk <= r.nextPk && s.now <= r.now
    && (forall pk :: pk in r.rows && pk !in s.rows ==> IsCommit(s, t) && pk == Pk(s.nextPk))
    && (forall pk :: pk in r.rows && pk in s.rows ==> RowFramed(s.rows[pk], r.rows[pk], s.now))
  }

  /** The step writes the state of `i` from outside the queue. */
  predicate Meddles(s: State, t: Step, i: Inst) {
    || (t.ExternalWrite? && t.i == i)
    || (!IsEnvironment(t) && MovesStateOutsideTheQueue(t) && InSection(PcOf(s, t.a)) && PcOf(s, t.a).inst == i)
  }

  /** Callers and rows are disturbed by the writes and commits of others, and in no other way. */
  ghost predicate DisturbancesFramed(s: State, r: State, t: Step) {
    && (forall b :: b in r.touched && b !in s.touched ==>
          && b in s.pcs && InSection(s.pcs[b]) && (IsEnvironment(t) || b != t.a)
          && (Meddles(s, t, s.pcs[b].inst) || (IsCommit(s, t) && PcOf(s, t.a).inst == s.pcs[b].inst)))
    && (forall pk :: pk in r.disturbed && pk !in s.disturbed ==>
          || (Uncompleted(s, pk) && Meddles(s, t, s.rows[pk].inst))
          || (IsCommit(s, t) && t.a in s.touched && pk == Pk(s.nextPk)))
    && (t.Begin? && InSection(PcOf(r, t.a)) ==> t.a !in r.touched)
  }

  /** Only the actor of a step moves. */
  ghost predicate ActorsFramed(s: State, r: State, t: Step) {
    if IsEnvironment(t) then r.pcs == s.pcs
    else forall b :: b != t.a ==> PcOf(r, b) == PcOf(s, b)
  }

  /** Locks are added where there were none, and go by their owner or by expiry. */
  ghost predicate LocksFramed(s: State, r: State, t: Step) {
    forall i :: i in s.lock ==>
      if i in r.lock then r.lock[i] == s.lock[i]
      else
        || (t.Unlock? && PcOf(s, t.a) == Releasing(i, s.lock[i]))
        || (t.ExpireHeld? && InSection(PcOf(s, t.a)) && PcOf(s, t.a).inst == i)
        || t == ExpireOrphan(i)
  }

  ghost predicate Framed(s: State, r: State, t: Step) {
    RowsFramed(s, r, t) && DisturbancesFramed(s, r, t) && ActorsFramed(s, r, t) && LocksFramed(s, r, t)
  }

  /** The steps of workers and safety nets: rows they may write, one actor, the state column. */
  ghost predicate Worked(s: State, r: State, a: Actor) {
    && r == s.(rows := r.rows, events := r.events, db := r.db, rowLock := r.rowLock, pcs := r.pcs)
    && r.rows.Keys == s.rows.Keys
    && (forall pk :: pk in s.rows ==> RowFramed(s.rows[pk], r.rows[pk], s.now))
    && !InSection(PcOf(r, a))
    && (forall b :: b != a ==> PcOf(r, b) == PcOf(s, b))
  }

  lemma WorkedIsFramed(s: State, r: State, t: Step)
    requires (t.Work? || t.Begin?) && Worked(s, r, t.a)
    ensures Framed(s, r, t)
  {}

  lemma SettledWorked(s: State, a: Actor, pk: Pk, op: Op)
    requires Uncompleted(s, pk) && pk in s.events
    ensures Worked(s, Settled(s, a, pk, op), a)
  {}

  lemma SetStateWorked(s: State, t: State, a: Actor, i: Inst, v: Option<string>)
    requires Worked(s, t, a) && i in t.db
    ensures Worked(s, SetState(t, i, v), a)
  {}

  lemma FailureFramed(s: State, a: Actor, m: WorkMove, op: Op)
    requires Present(s) && WorkEnabled(s, PcOf(s, a), m) && PcOf(s, a).Holding? && Uncompleted(s, PcOf(s, a).pk)
    requires (m.FailAttempt? && op == Fail(m.permanent)) || (m.Finish? && op == FinalOp(PcOf(s, a).role, false))
    ensures Worked(s, HolderApply(s, a, PcOf(s, a), m), a)
  {
    FailureWorked(s, a, PcOf(s, a).pk, op);
  }

  lemma FailureWorked(s: State, a: Actor, pk: Pk, op: Op)
    requires Present(s) && Uncompleted(s, pk)
    ensures Worked(s, Settled(s, a, pk, op), a)
    ensures Worked(s, SetState(Settled(s, a, pk, op), s.rows[pk].inst, s.rows[pk].decl.failedState), a)
  {
    SettledWorked(s, a, pk, op);
    SetStateWorked(s, Settled(s, a, pk, op), a, s.rows[pk].inst, s.rows[pk].decl.failedState);
  }

  lemma GuardFramed(s: State, a: Actor)
    requires Present(s) && WorkEnabled(s, PcOf(s, a), GuardState) && Uncompleted(s, PcOf(s, a).pk)
    ensures Worked(s, HolderApply(s, a, PcOf(s, a), GuardState), a)
  {
    var pc := PcOf(s, a);
    var r := HolderApply(s, a, pc, GuardState);
    if AtRest(s.rows[pc.pk].decl, s.db[s.rows[pc.pk].inst]) {
      PlacedWorked(s, r, a, pc.(guarded := true));
    } else {
      SettledWorked(s, a, pc.pk, FinalOp(pc.role, true));
    }
  }

  lemma SuccessFramed(s: State, a: Actor)
    requires Present(s) && WorkEnabled(s, PcOf(s, a), WorkMove.Succeed) && Uncompleted(s, PcOf(s, a).pk)
    ensures Worked(s, HolderApply(s, a, PcOf(s, a), WorkMove.Succeed), a)
  {
    var pk := PcOf(s, a).pk;
    SettledWorked(s, a, pk, Op.Succeed);
    SetStateWorked(s, Settled(s, a, pk, Op.Succeed), a, s.rows[pk].inst, s.rows[pk].decl.target);
  }

  lemma HolderFramed(s: State, a: Actor, m: WorkMove)
    requires Present(s) && RowsHeld(s) && WorkEnabled(s, PcOf(s, a), m) && PcOf(s, a).Holding?
    ensures Worked(s, HolderApply(s, a, PcOf(s, a), m), a)
  {
    var pc := PcOf(s, a);
    var pk := pc.pk;
    assert HoldsRow(s, a, pc.role, pk);
    match m
    case RestoreBroken => SettledWorked(s, a, pk, if pc.role.Attempt? then RestoreFail else FinalOp(pc.role, false));
    case GuardState => GuardFramed(s, a);
    case Succeed => SuccessFramed(s, a);
    case FailAttempt(permanent, accepted) => FailureFramed(s, a, m, Fail(permanent));
    case Finish(accepted) => FailureFramed(s, a, m, FinalOp(pc.role, false));
    case _ =>
  }

  lemma WroteWorked(s: State, a: Actor, pk: Pk, op: Op, pc: Pc)
    requires Uncompleted(s, pk) && pk in s.events && !InSection(pc)
    ensures Worked(s, At(Wrote(s, pk, op), a, pc), a)
  {}

  lemma PlacedWorked(s: State, r: State, a: Actor, pc: Pc)
    requires !InSection(pc) && r == At(s, a, pc).(rowLock := r.rowLock)
    ensures Worked(s, r, a)
  {}

  lemma TakeWorked(s: State, a: Actor)
    requires Present(s) && WorkEnabled(s, PcOf(s, a), Take)
    ensures Worked(s, WorkApply(s, a, PcOf(s, a), Take), a)
  {
    var r := WorkApply(s, a, PcOf(s, a), Take);
    PlacedWorked(s, r, a, PcOf(r, a));
  }

  lemma LooseWorked(s: State, a: Actor, m: WorkMove)
    requires Present(s) && WorkEnabled(s, PcOf(s, a), m) && !PcOf(s, a).Holding?
    ensures Worked(s, WorkApply(s, a, PcOf(s, a), m), a)
  {
    if m.Take? {
      TakeWorked(s, a);
    } else if Uncompleted(s, PcOf(s, a).pk) {
      WroteWorked(s, a, PcOf(s, a).pk, if m.RecordDeath? then Death else GiveUp, Idle);
    }
  }

  lemma WorkFramed(s: State, a: Actor, m: WorkMove)
    requires Present(s) && RowsHeld(s) && Enabled(s, Work(a, m))
    ensures Framed(s, Apply(s, Work(a, m)), Work(a, m))
  {
    if PcOf(s, a).Holding? { HolderFramed(s, a, m); } else { LooseWorked(s, a, m); }
    WorkedIsFramed(s, Apply(s, Work(a, m)), Work(a, m));
  }

  lemma BeginFramed(s: State, a: Actor, b: Beginning)
    requires Present(s) && Enabled(s, Begin(a, b))
    ensures Framed(s, Apply(s, Begin(a, b)), Begin(a, b))
  {
    match b
    case Enqueue(i, decl) => LockTakenFramed(s, a, i, Enqueuing(Locked, i, decl, s.nextTok, ""), b);
    case Transition(i, decl) => LockTakenFramed(s, a, i, Syncing(false, false, i, decl, s.nextTok, {}), b);
    case FailedAction(i, v) => LockTakenFramed(s, a, i, Acting(false, i, v, s.nextTok), b);
    case _ =>
      BeginWorked(s, a, b);
      WorkedIsFramed(s, BeginApply(s, a, b), Begin(a, b));
  }

  lemma LockTakenFramed(s: State, a: Actor, i: Inst, pc: Pc, b: Beginning)
    requires i !in s.lock
    ensures Framed(s, TakeLock(s, a, i, pc), Begin(a, b))
  {}

  lemma BeginWorked(s: State, a: Actor, b: Beginning)
    requires Present(s) && Enabled(s, Begin(a, b)) && !b.Enqueue? && !b.Transition? && !b.FailedAction?
    ensures Worked(s, BeginApply(s, a, b), a)
  {
    var r := BeginApply(s, a, b);
    match b
    case StampAttempt(pk) => WroteWorked(s, a, pk, Stamp, Stamped(pk));
    case WatchdogCharge(pk) => ChargeWorked(s, a, pk);
    case _ => PlacedWorked(s, r, a, PcOf(r, a));
  }

  lemma ChargeWorked(s: State, a: Actor, pk: Pk)
    requires Present(s) && Enabled(s, Begin(a, WatchdogCharge(pk)))
    ensures Worked(s, Wrote(s, pk, Charge(false)), a)
  {}

  /** A move between taking a lock and its unlock. */
  ghost predicate SectionMoved(s: State, r: State, a: Actor) {
    && InSection(PcOf(s, a)) && a in r.pcs && r.pcs == s.pcs[a := r.pcs[a]]
    && InSection(r.pcs[a]) && r.pcs[a].inst == PcOf(s, a).inst && r.pcs[a].tok == PcOf(s, a).tok
    && r == s.(db := r.db, slot := r.slot, pcs := r.pcs, touched := r.touched, disturbed := r.disturbed)
  }

  /** No disturbance but the ones a write of the state makes. */
  ghost predicate Disturbs(s: State, r: State, a: Actor, i: Inst, writes: bool) {
    && (forall b :: b in r.touched ==> b in s.touched || (writes && b in CallersOn(s, i) && b != a))
    && (forall pk :: pk in r.disturbed ==> pk in s.disturbed || (writes && pk in OpenRows(s, i)))
  }

  /** Staying in the section, perhaps after a look, writes nothing. */
  lemma LookMoves(s: State, r: State, a: Actor)
    requires InSection(PcOf(s, a)) && (r == At(s, a, PcOf(r, a)) || r == At(Looked(s, a), a, PcOf(r, a)))
    requires a in r.pcs && InSection(r.pcs[a]) && r.pcs[a].inst == PcOf(s, a).inst && r.pcs[a].tok == PcOf(s, a).tok
    ensures SectionMoved(s, r, a) && Disturbs(s, r, a, PcOf(s, a).inst, false) && r.db == s.db
  {}

  lemma CheckMoves(s: State, a: Actor, m: EnqueueMove)
    requires Present(s) && Enabled(s, Enq(a, m)) && (m.CheckSource? || m.RecheckSource?)
    ensures SectionMoved(s, EnqueueApply(s, a, PcOf(s, a), m), a)
    ensures Disturbs(s, EnqueueApply(s, a, PcOf(s, a), m), a, PcOf(s, a).inst, false)
    ensures EnqueueApply(s, a, PcOf(s, a), m).db == s.db
  {
    var r := EnqueueApply(s, a, PcOf(s, a), m);
    if m.CheckSource? { LookMoves(s, r, a); } else { RecheckMoves(s, a); }
  }

  lemma RecheckMoves(s: State, a: Actor)
    requires Present(s) && Enabled(s, Enq(a, RecheckSource))
    ensures var r := EnqueueApply(s, a, PcOf(s, a), RecheckSource);
            SectionMoved(s, r, a) && Disturbs(s, r, a, PcOf(s, a).inst, false) && r.db == s.db
  {
    var r := EnqueueApply(s, a, PcOf(s, a), RecheckSource);
    if s.db[PcOf(s, a).inst] in PcOf(s, a).decl.sources { LookMoves(s, r, a); } else { DropMoves(s, a); }
  }

  lemma DropMoves(s: State, a: Actor)
    requires InSection(PcOf(s, a))
    ensures var pc := PcOf(s, a);
            var r := At(s.(slot := s.slot - {pc.inst}), a, Releasing(pc.inst, pc.tok));
            SectionMoved(s, r, a) && Disturbs(s, r, a, pc.inst, false) && r.db == s.db
  {}

  lemma EnqueueMoves(s: State, a: Actor, m: EnqueueMove)
    requires Present(s) && Enabled(s, Enq(a, m)) && !m.CommitRow?
    ensures SectionMoved(s, EnqueueApply(s, a, PcOf(s, a), m), a)
    ensures Disturbs(s, EnqueueApply(s, a, PcOf(s, a), m), a, PcOf(s, a).inst, false)
    ensures EnqueueApply(s, a, PcOf(s, a), m).db == s.db
  {
    if m.CheckSource? || m.RecheckSource? { CheckMoves(s, a, m); }
  }

  lemma WriteMoves(s: State, a: Actor, v: string)
    requires InSection(PcOf(s, a))
    ensures var pc := PcOf(s, a);
            var r := At(Moved(s, pc.inst, v, {a}), a, Releasing(pc.inst, pc.tok));
            SectionMoved(s, r, a) && Disturbs(s, r, a, pc.inst, true)
  {}

  lemma SyncMoves(s: State, a: Actor, m: SyncMove)
    requires Present(s) && Enabled(s, Sync(a, m))
    ensures SectionMoved(s, SyncApply(s, a, PcOf(s, a), m), a)
    ensures Disturbs(s, SyncApply(s, a, PcOf(s, a), m), a, PcOf(s, a).inst, m.WriteState?)
  {
    match m
    case ReadState => ReadStateMoves(s, a);
    case ReadRow => LookMoves(s, SyncApply(s, a, PcOf(s, a), m), a);
    case WriteState(v) => WriteMoves(s, a, v);
    case FailSync => LookMoves(s, SyncApply(s, a, PcOf(s, a), m), a);
  }

  lemma ReadStateMoves(s: State, a: Actor)
    requires Present(s) && Enabled(s, Sync(a, ReadState))
    ensures var r := SyncApply(s, a, PcOf(s, a), ReadState);
            SectionMoved(s, r, a) && Disturbs(s, r, a, PcOf(s, a).inst, false)
  {
    var pc := PcOf(s, a);
    var r := SyncApply(s, a, pc, ReadState);
    if s.db[pc.inst] in pc.decl.sources {
      assert PcOf(r, a) == pc.(read := true, outcomes := Outcomes(s, pc.inst));
      LookMoves(s, r, a);
    } else {
      LookMoves(s, r, a);
    }
  }

  lemma ActionMoves(s: State, a: Actor, m: ActionMove)
    requires Present(s) && Enabled(s, Act(a, m))
    ensures SectionMoved(s, ActionApply(s, a, PcOf(s, a), m), a)
    ensures Disturbs(s, ActionApply(s, a, PcOf(s, a), m), a, PcOf(s, a).inst, m.WriteFailed?)
  {
    match m
    case Probe => LookMoves(s, ActionApply(s, a, PcOf(s, a), m), a);
    case WriteFailed => WriteMoves(s, a, PcOf(s, a).failed);
    case SkipWrite => LookMoves(s, ActionApply(s, a, PcOf(s, a), m), a);
  }

  lemma SectionMovedIsFramed(s: State, r: State, t: Step)
    requires (t.Enq? || t.Sync? || t.Act?) && SectionMoved(s, r, t.a)
    requires Disturbs(s, r, t.a, PcOf(s, t.a).inst, MovesStateOutsideTheQueue(t))
    ensures Framed(s, r, t)
  {}

  lemma EnqueueFramed(s: State, a: Actor, m: EnqueueMove)
    requires Present(s) && Declared(s) && Enabled(s, Enq(a, m))
    ensures Framed(s, Apply(s, Enq(a, m)), Enq(a, m))
  {
    var r := Apply(s, Enq(a, m));
    if m.CommitRow? {
      CommitIsCommitted(s, a);
      CommitFramed(s, r, a);
    } else {
      EnqueueMoves(s, a, m);
      SectionMovedIsFramed(s, r, Enq(a, m));
    }
  }

  lemma CommitFramed(s: State, r: State, a: Actor)
    requires RowCommitted(s, r, a)
    ensures Framed(s, r, Enq(a, CommitRow))
  {}

  lemma SectionFramed(s: State, t: Step)
    requires Present(s) && Enabled(s, t) && (t.Sync? || t.Act?)
    ensures Framed(s, Apply(s, t), t)
  {
    if t.Sync? { SyncMoves(s, t.a, t.sync); } else { ActionMoves(s, t.a, t.act); }
    SectionMovedIsFramed(s, Apply(s, t), t);
  }

  lemma UnlockFramed(s: State, a: Actor)
    requires Present(s) && Enabled(s, Unlock(a))
    ensures Framed(s, Apply(s, Unlock(a)), Unlock(a))
  {
    UnlockShape(s, a);
  }

  lemma CrashFramed(s: State, a: Actor, noticed: bool)
    requires Present(s) && Enabled(s, Crash(a, noticed))
    ensures Framed(s, Apply(s, Crash(a, noticed)), Crash(a, noticed))
  {
    CrashShape(s, a, noticed);
  }

  lemma EnvironmentFramed(s: State, t: Step)
    requires Present(s) && Enabled(s, t) && IsEnvironment(t)
    ensures Framed(s, Apply(s, t), t)
  {}

  lemma StepFramed(s: State, t: Step)
    requires Present(s) && Declared(s) && RowsHeld(s) && Enabled(s, t)
    ensures Framed(s, Apply(s, t), t)
  {
    if t.Begin? { BeginFramed(s, t.a, t.begin); }
    else if t.Enq? { EnqueueFramed(s, t.a, t.enq); }
    else if t.Work? { WorkFramed(s, t.a, t.work); }
    else if t.Unlock? { UnlockFramed(s, t.a); }
    else if t.Crash? { CrashFramed(s, t.a, t.noticed); }
    else if IsEnvironment(t) { EnvironmentFramed(s, t); }
    else { SectionFramed(s, t); }
  }

  /** The invariant and the frame of step `n`. */
  lemma StepOfRun(trace: seq<State>, steps: seq<Step>, n: nat)
    requires Run(trace, steps) && n < |steps|
    ensures Inv(trace[n]) && Framed(trace[n], trace[n + 1], steps[n])
  {
    RunKeeps(trace, steps, n);
    StepFramed(trace[n], steps[n]);
  }

  ghost predicate RowsFramedThroughout(trace: seq<State>, steps: seq<Step>) {
    && |trace| == |steps| + 1
    && forall k :: 0 <= k < |steps| ==> RowsFramed(trace[k], trace[k + 1], steps[k])
  }

  lemma RowsOfRun(trace: seq<State>, steps: seq<Step>)
    requires Run(trace, steps)
    ensures RowsFramedThroughout(trace, steps)
  {
    forall k | 0 <= k < |steps| ensures RowsFramed(trace[k], trace[k + 1], steps[k]) {
      StepOfRun(trace, steps, k);
    }
  }
}
