/** The durable background-transition protocol as a machine: enqueue, the
    synchronous path, workers, the safety nets, crashes, lock expiry and writes
    from outside, interleaved one statement or one commit at a time. */
module Protocol {
  import opened Wrappers
  import opened Messages

  datatype Inst = Inst(n: nat)     // an instance together with its one process
  datatype Actor = Actor(n: nat)   // a call frame, a worker, a safety-net pass

  /** `target` is None for an action; `timeout` is per attempt. */
  datatype Decl = Decl(
    sources: set<string>,
    inProgress: Option<string>,
    target: Option<string>,
    failedState: Option<string>,
    timeout: Option<nat>)

  /** What the constructors of transitions guarantee. */
  predicate ValidDecl(d: Decl) {
    d.inProgress.Some? ==>
      d.inProgress.value in d.sources && d.target.Some? && d.failedState != d.inProgress
  }

  /** `_state_guard_matches`. */
  predicate AtRest(d: Decl, state: string) {
    if d.inProgress.Some? then state == d.inProgress.value else state in d.sources
  }

  datatype Row = Row(inst: Inst, decl: Decl, message: Message)

  datatype Phase = Locked | Checked | Inserted | Rechecked

  datatype Role = Attempt | WatchdogFinal | StuckFinal

  /** Where an actor stands. */
  datatype Pc =
    | Idle
    | Enqueuing(phase: Phase, inst: Inst, decl: Decl, tok: nat, seen: string)
    | Syncing(passed: bool, read: bool, inst: Inst, decl: Decl, tok: nat, outcomes: set<Option<string>>)
    | Acting(probed: bool, inst: Inst, failed: string, tok: nat)
    | Releasing(inst: Inst, tok: nat)          // in the finally, before unlock
    | Stamped(pk: Pk)
    | Holding(role: Role, guarded: bool, pk: Pk)
    | GivingUp(pk: Pk)                         // rolled back as unrestorable, not yet marked
    | Dead(pk: Pk)                             // the child died, not yet recorded

  predicate InSection(pc: Pc) {
    pc.Enqueuing? || pc.Syncing? || pc.Acting? || pc.Releasing?
  }

  predicate HasSlot(pc: Pc) {
    pc.Enqueuing? && (pc.phase.Inserted? || pc.phase.Rechecked?)
  }

  /** The persisted state when enqueue rechecked it and when the row committed,
      and whether anyone touched the instance in between. */
  datatype Birth = Birth(seen: string, atCommit: string, touched: bool, message: Message)

  datatype State = State(
    cfg: Config,
    now: int,
    db: map<Inst, string>,         // the persisted state column
    rows: map<Pk, Row>,
    lock: map<Inst, nat>,          // the cache key and the token in it
    slot: map<Inst, Actor>,        // uncommitted inserts in the partial unique index
    rowLock: map<Pk, Actor>,
    pcs: map<Actor, Pc>,
    nextPk: nat,
    nextTok: nat,
    // history
    touched: set<Actor>,           // callers whose instance someone else moved or queued since they looked at it
    disturbed: set<Pk>,            // rows whose instance someone else moved since their recheck
    births: map<Pk, Birth>,
    events: map<Pk, seq<Event>>)   // every write of each row

  function PcOf(s: State, a: Actor): Pc {
    if a in s.pcs then s.pcs[a] else Idle
  }

  /** No uncompleted row for `i`. */
  predicate NoOpenRow(s: State, i: Inst) {
    forall pk :: pk in s.rows && s.rows[pk].inst == i ==> s.rows[pk].message.isCompleted
  }

  predicate OpenOn(s: State, pk: Pk, i: Inst) {
    pk in s.rows && s.rows[pk].inst == i && !s.rows[pk].message.isCompleted
  }

  predicate Uncompleted(s: State, pk: Pk) {
    pk in s.rows && !s.rows[pk].message.isCompleted
  }

  predicate Free(s: State, pk: Pk) {
    Uncompleted(s, pk) && pk !in s.rowLock
  }

  function CallersOn(s: State, i: Inst): set<Actor> {
    set a | a in s.pcs && InSection(s.pcs[a]) && s.pcs[a].inst == i
  }

  function OpenRows(s: State, i: Inst): set<Pk> {
    set pk | pk in s.rows && OpenOn(s, pk, i)
  }

  /** The cache still holds the token this section was entered with. */
  predicate HoldsLock(s: State, pc: Pc)
    requires InSection(pc)
  {
    pc.inst in s.lock && s.lock[pc.inst] == pc.tok
  }

  /** `a` has just looked at its instance. */
  function Looked(s: State, a: Actor): State {
    s.(touched := s.touched - {a})
  }

  /** A write of the state by neither a row's worker nor its enqueue. */
  function Moved(s: State, i: Inst, v: string, writers: set<Actor>): State {
    s.(db := s.db[i := v], touched := s.touched + (CallersOn(s, i) - writers), disturbed := s.disturbed + OpenRows(s, i))
  }

  function At(s: State, a: Actor, pc: Pc): State {
    s.(pcs := s.pcs[a := pc])
  }

  /** A write of row `pk`, on record. */
  function Wrote(s: State, pk: Pk, op: Op): State
    requires pk in s.rows && pk in s.events
  {
    var m := Messages.Write(s.rows[pk].message, op, s.cfg, s.now);
    s.(rows := s.rows[pk := s.rows[pk].(message := m)],
       events := s.events[pk := s.events[pk] + [Event(op, s.now)]])
  }

  /** The attempt or finalization is over: its write lands and its row lock goes. */
  function Settled(s: State, a: Actor, pk: Pk, op: Op): State
    requires pk in s.rows && pk in s.events
  {
    At(Wrote(s, pk, op).(rowLock := s.rowLock - {pk}), a, Idle)
  }

  function SetState(s: State, i: Inst, v: Option<string>): State {
    if v.None? then s else s.(db := s.db[i := v.value])
  }

  // ----- enqueue -----

  datatype EnqueueMove = CheckSource | Insert | RecheckSource | CommitRow | FailEnqueue

  predicate EnqueueEnabled(s: State, pc: Pc, m: EnqueueMove) {
    && pc.Enqueuing?
    && match m
       case CheckSource => pc.phase.Locked?
       // blocks while another insert is pending on the same key
       case Insert => pc.phase.Checked? && (NoOpenRow(s, pc.inst) ==> pc.inst !in s.slot)
       case RecheckSource => pc.phase.Inserted?
       case CommitRow => pc.phase.Rechecked?
       case FailEnqueue => true
  }

  function EnqueueApply(s: State, a: Actor, pc: Pc, m: EnqueueMove): State
    requires EnqueueEnabled(s, pc, m) && pc.inst in s.db
  {
    var out := Releasing(pc.inst, pc.tok);
    match m
    case CheckSource => At(s, a, if s.db[pc.inst] in pc.decl.sources then pc.(phase := Checked) else out)
    case Insert =>
      if NoOpenRow(s, pc.inst) then At(s.(slot := s.slot[pc.inst := a]), a, pc.(phase := Inserted))
      else At(s, a, out)                                          // AlreadyInProgress
    case RecheckSource =>
      if s.db[pc.inst] in pc.decl.sources then At(Looked(s, a), a, pc.(phase := Rechecked, seen := s.db[pc.inst]))
      else At(s.(slot := s.slot - {pc.inst}), a, out)             // SourceStateChanged
    case CommitRow => At(Committed(s, a, pc), a, out)
    case FailEnqueue => At(if HasSlot(pc) then s.(slot := s.slot - {pc.inst}) else s, a, out)
  }

  /** The insert and the in-progress write commit together. */
  function Committed(s: State, a: Actor, pc: Pc): State
    requires pc.Enqueuing? && pc.inst in s.db
  {
    var pk := Pk(s.nextPk);
    var m := NewMessage(pc.decl.timeout, s.now);
    SetState(s.(rows := s.rows[pk := Row(pc.inst, pc.decl, m)],
                nextPk := s.nextPk + 1,
                slot := s.slot - {pc.inst},
                touched := s.touched + (CallersOn(s, pc.inst) - {a}),
                disturbed := if a in s.touched then s.disturbed + {pk} else s.disturbed,
                births := s.births[pk := Birth(pc.seen, s.db[pc.inst], a in s.touched, m)],
                events := s.events[pk := []]),
             pc.inst, pc.decl.inProgress)
  }

  // ----- the synchronous path -----

  datatype SyncMove = ReadState | ReadRow | WriteState(state: string) | FailSync

  predicate SyncEnabled(s: State, pc: Pc, m: SyncMove) {
    && pc.Syncing?
    && match m
       case ReadState => !pc.read
       case ReadRow => pc.read && !pc.passed
       case WriteState(_) => pc.passed
       case FailSync => true
  }

  /** Where the uncompleted rows of `i` may leave it. */
  function Outcomes(s: State, i: Inst): set<Option<string>> {
    (set pk | pk in s.rows && OpenOn(s, pk, i) :: s.rows[pk].decl.target)
    + (set pk | pk in s.rows && OpenOn(s, pk, i) :: s.rows[pk].decl.failedState)
  }

  /** `outcomes` remembers where the rows open when the state was read could still leave it. */
  function SyncApply(s: State, a: Actor, pc: Pc, m: SyncMove): State
    requires SyncEnabled(s, pc, m) && pc.inst in s.db
  {
    var out := Releasing(pc.inst, pc.tok);
    match m
    case ReadState =>
      if s.db[pc.inst] in pc.decl.sources then At(Looked(s, a), a, pc.(read := true, outcomes := Outcomes(s, pc.inst)))
      else At(s, a, out)
    case ReadRow => At(s, a, if NoOpenRow(s, pc.inst) then pc.(passed := true) else out)
    case WriteState(v) => At(Moved(s, pc.inst, v, {a}), a, out)
    case FailSync => At(s, a, out)
  }

  /** A failing Action: its lock covers only the probe and the failed_state write. */
  datatype ActionMove = Probe | WriteFailed | SkipWrite

  predicate ActionEnabled(s: State, pc: Pc, m: ActionMove) {
    pc.Acting? && (m.Probe? ==> !pc.probed) && (m.WriteFailed? ==> pc.probed)
  }

  function ActionApply(s: State, a: Actor, pc: Pc, m: ActionMove): State
    requires ActionEnabled(s, pc, m)
  {
    var out := Releasing(pc.inst, pc.tok);
    match m
    case Probe => if NoOpenRow(s, pc.inst) then At(Looked(s, a), a, pc.(probed := true)) else At(s, a, out)
    case WriteFailed => At(Moved(s, pc.inst, pc.failed, {a}), a, out)
    case SkipWrite => At(s, a, out)
  }

  // ----- workers and safety nets -----

  datatype WorkMove =
    | Take                                       // lock the row, or find nothing to do
    | RestoreGone                                // _StopRetry
    | MarkUnrestorable
    | RestoreBroken
    | GuardState
    | Succeed
    | FailAttempt(permanent: bool, accepted: bool)
    | Finish(accepted: bool)
    | RecordDeath

  predicate WorkEnabled(s: State, pc: Pc, m: WorkMove) {
    match m
    case Take => pc.Stamped?
    case RestoreGone => pc.Holding? && pc.role.Attempt? && !pc.guarded
    case MarkUnrestorable => pc.GivingUp? && pc.pk !in s.rowLock   // the UPDATE waits for the row
    case RestoreBroken => pc.Holding? && !pc.guarded
    case GuardState => pc.Holding? && !pc.guarded
    case Succeed => pc.Holding? && pc.role.Attempt? && pc.guarded
    case FailAttempt(_, _) => pc.Holding? && pc.role.Attempt? && pc.guarded
    case Finish(_) => pc.Holding? && !pc.role.Attempt? && pc.guarded
    case RecordDeath => pc.Dead? && pc.pk !in s.rowLock            // the UPDATE waits for the row
  }

  /** The row write that ends a finalization, by who finalizes; for an attempt, the guard's. */
  function FinalOp(role: Role, superseded: bool): Op {
    match role
    case Attempt => Supersede
    case WatchdogFinal => Charge(superseded)
    case StuckFinal => Finalize(superseded)
  }

  function HolderApply(s: State, a: Actor, pc: Pc, m: WorkMove): State
    requires WorkEnabled(s, pc, m) && pc.Holding?
    requires pc.pk in s.rows && pc.pk in s.events && s.rows[pc.pk].inst in s.db
  {
    var pk, row := pc.pk, s.rows[pc.pk];
    match m
    case RestoreGone => At(s.(rowLock := s.rowLock - {pk}), a, GivingUp(pk))
    case RestoreBroken => Settled(s, a, pk, if pc.role.Attempt? then RestoreFail else FinalOp(pc.role, false))
    case GuardState =>
      if AtRest(row.decl, s.db[row.inst]) then At(s, a, pc.(guarded := true))
      else Settled(s, a, pk, FinalOp(pc.role, true))
    case Succeed => SetState(Settled(s, a, pk, Op.Succeed), row.inst, row.decl.target)
    case FailAttempt(permanent, accepted) =>
      var after := Settled(s, a, pk, Fail(permanent));
      if after.rows[pk].message.isCompleted && accepted then SetState(after, row.inst, row.decl.failedState) else after
    case Finish(accepted) =>
      var after := Settled(s, a, pk, FinalOp(pc.role, false));
      if accepted then SetState(after, row.inst, row.decl.failedState) else after
    case _ => s
  }

  function WorkApply(s: State, a: Actor, pc: Pc, m: WorkMove): State
    requires WorkEnabled(s, pc, m)
    requires pc.Holding? ==> pc.pk in s.rows && pc.pk in s.events && s.rows[pc.pk].inst in s.db
    requires (pc.GivingUp? || pc.Dead?) && pc.pk in s.rows ==> pc.pk in s.events
  {
    if pc.Holding? then HolderApply(s, a, pc, m)
    else if m.Take? then
      if Free(s, pc.pk) then At(s.(rowLock := s.rowLock[pc.pk := a]), a, Holding(Attempt, false, pc.pk)) else At(s, a, Idle)
    else
      At(if Uncompleted(s, pc.pk) then Wrote(s, pc.pk, if m.RecordDeath? then Death else GiveUp) else s, a, Idle)
  }

  /** What an idle actor can begin. */
  datatype Beginning =
    | Enqueue(i: Inst, decl: Decl)
    | Transition(i: Inst, decl: Decl)
    | FailedAction(i: Inst, state: string)
    | StampAttempt(pk: Pk)
    | LateDeath(pk: Pk)           // a child died after its attempt ended
    | WatchdogCharge(pk: Pk)      // below MAX_ERRORS: one short transaction
    | WatchdogTake(pk: Pk)        // the charge that reaches MAX_ERRORS finalizes too
    | StuckTake(pk: Pk)

  predicate BeginEnabled(s: State, b: Beginning) {
    match b
    case Enqueue(i, decl) => i in s.db && i !in s.lock && ValidDecl(decl)
    case Transition(i, decl) => i in s.db && i !in s.lock && ValidDecl(decl)
    case FailedAction(i, _) => i in s.db && i !in s.lock
    case StampAttempt(pk) => Free(s, pk)
    case LateDeath(pk) => true
    case WatchdogCharge(pk) =>
      && Free(s, pk) && s.rows[pk].message.Chargeable(s.now)
      && s.rows[pk].message.errorsCount + 1 < s.cfg.maxErrors
    case WatchdogTake(pk) =>
      && Free(s, pk) && s.rows[pk].message.Chargeable(s.now)
      && s.rows[pk].message.errorsCount + 1 >= s.cfg.maxErrors
    case StuckTake(pk) => Free(s, pk) && s.rows[pk].message.InStuckScan(s.cfg)
  }

  function TakeLock(s: State, a: Actor, i: Inst, pc: Pc): State {
    At(Looked(s, a).(lock := s.lock[i := s.nextTok], nextTok := s.nextTok + 1), a, pc)
  }

  function BeginApply(s: State, a: Actor, b: Beginning): State
    requires BeginEnabled(s, b)
    requires forall pk :: pk in s.rows ==> pk in s.events
  {
    match b
    case Enqueue(i, decl) => TakeLock(s, a, i, Enqueuing(Locked, i, decl, s.nextTok, ""))
    case Transition(i, decl) => TakeLock(s, a, i, Syncing(false, false, i, decl, s.nextTok, {}))
    case FailedAction(i, v) => TakeLock(s, a, i, Acting(false, i, v, s.nextTok))
    case StampAttempt(pk) => At(Wrote(s, pk, Stamp), a, Stamped(pk))
    case LateDeath(pk) => At(s, a, Dead(pk))
    case WatchdogCharge(pk) => Wrote(s, pk, Charge(false))
    case WatchdogTake(pk) => At(s.(rowLock := s.rowLock[pk := a]), a, Holding(WatchdogFinal, false, pk))
    case StuckTake(pk) => At(s.(rowLock := s.rowLock[pk := a]), a, Holding(StuckFinal, false, pk))
  }

  // ----- the machine -----

  datatype Step =
    | Begin(a: Actor, begin: Beginning)
    | Enq(a: Actor, enq: EnqueueMove)
    | Sync(a: Actor, sync: SyncMove)
    | Act(a: Actor, act: ActionMove)
    | Unlock(a: Actor)
    | Work(a: Actor, work: WorkMove)
    | Crash(a: Actor, noticed: bool)
    | Sweep(gone: set<Pk>)
    | ExternalWrite(i: Inst, state: string)
    | ExpireHeld(a: Actor)
    | ExpireOrphan(i: Inst)
    | Tick(ms: nat)

  predicate Enabled(s: State, t: Step) {
    match t
    case Begin(a, b) => PcOf(s, a).Idle? && BeginEnabled(s, b)
    case Enq(a, m) => EnqueueEnabled(s, PcOf(s, a), m)
    case Sync(a, m) => SyncEnabled(s, PcOf(s, a), m)
    case Act(a, m) => ActionEnabled(s, PcOf(s, a), m)
    case Unlock(a) => PcOf(s, a).Releasing?
    case Work(a, m) => WorkEnabled(s, PcOf(s, a), m)
    case Crash(a, noticed) =>
      var pc := PcOf(s, a);
      !pc.Idle? && (noticed ==> pc.Stamped? || (pc.Holding? && pc.role.Attempt?))
    case Sweep(gone) => forall pk :: pk in gone ==> pk in s.rows && s.rows[pk].message.isCompleted
    case ExternalWrite(i, _) => i in s.db
    case ExpireHeld(a) =>
      var pc := PcOf(s, a);
      InSection(pc) && HoldsLock(s, pc)
    case ExpireOrphan(i) =>
      i in s.lock && forall a :: a in s.pcs && InSection(s.pcs[a]) && s.pcs[a].inst == i ==> s.pcs[a].tok != s.lock[i]
    case Tick(_) => true
  }

  /** What steps read is there: instances actors work on, rows they hold, a history per row. */
  ghost predicate Present(s: State) {
    && (forall a :: a in s.pcs && InSection(s.pcs[a]) ==> s.pcs[a].inst in s.db)
    && (forall a :: a in s.pcs && s.pcs[a].Holding? ==> s.pcs[a].pk in s.rows)
    && (forall pk :: pk in s.rows ==> s.rows[pk].inst in s.db && pk in s.events && pk in s.births)
  }

  function UnlockApply(s: State, a: Actor, pc: Pc): State
    requires pc.Releasing?
  {
    At(if pc.inst in s.lock && s.lock[pc.inst] == pc.tok then s.(lock := s.lock - {pc.inst}) else s, a, Idle)
  }

  function CrashApply(s: State, a: Actor, pc: Pc, noticed: bool): State
    requires noticed ==> pc.Stamped? || pc.Holding?
  {
    var s1 := if HasSlot(pc) then s.(slot := s.slot - {pc.inst})
              else if pc.Holding? then s.(rowLock := s.rowLock - {pc.pk}) else s;
    At(s1, a, if noticed then Dead(pc.pk) else Idle)
  }

  function Apply(s: State, t: Step): State
    requires Present(s) && Enabled(s, t)
  {
    match t
    case Begin(a, b) => BeginApply(s, a, b)
    case Enq(a, m) => EnqueueApply(s, a, PcOf(s, a), m)
    case Sync(a, m) => SyncApply(s, a, PcOf(s, a), m)
    case Act(a, m) => ActionApply(s, a, PcOf(s, a), m)
    case Unlock(a) => UnlockApply(s, a, PcOf(s, a))
    case Work(a, m) => WorkApply(s, a, PcOf(s, a), m)
    case Crash(a, noticed) => CrashApply(s, a, PcOf(s, a), noticed)
    case Sweep(gone) => s.(rows := s.rows - gone)
    case ExternalWrite(i, v) => Moved(s, i, v, {})
    case ExpireHeld(a) => s.(lock := s.lock - {PcOf(s, a).inst})
    case ExpireOrphan(i) => s.(lock := s.lock - {i})
    case Tick(ms) => s.(now := s.now + ms)
  }
}
