/** Runs that show the conditions of the protocol's theorems are needed: the
    synchronous gate reads the state before the row, and states can be moved
    from outside or after a lock expired. */
module ProtocolWitnesses {
  import opened Wrappers
  import opened Messages
  import opened Protocol
  import opened ProtocolInvariant
  import opened ProtocolRuns
  import opened ProtocolSteps

  const CALLER := Actor(0)
  const RIVAL := Actor(1)
  const WORKER := Actor(2)
  const ROW := Pk(0)

  /** Where enqueue leaves an instance that was in `x`. */
  function Rest(b: Decl, x: string): string {
    if b.inProgress.Some? then b.inProgress.value else x
  }

  function Start(cfg: Config, i: Inst, x: string): State {
    State(cfg, 0, map[i := x], map[], map[], map[], map[], map[], 0, 0, {}, {}, map[], map[])
  }

  /** The steps with which someone other than the queue interferes: synchronous
      transitions and failing actions as they begin and as they write, writes from
      outside, and locks that expire under their holders. */
  predicate Interferes(t: Step) {
    || t.ExternalWrite? || t.ExpireHeld?
    || (t.Sync? && t.sync.WriteState?) || (t.Act? && t.act.WriteFailed?)
    || (t.Begin? && (t.begin.Transition? || t.begin.FailedAction?))
  }

  /** All such steps of a run, in order. */
  function Interferences(steps: seq<Step>): seq<Step> {
    if steps == [] then []
    else
      var last := steps[|steps| - 1];
      Interferences(steps[..|steps| - 1]) + if Interferes(last) then [last] else []
  }

  /** Which runs are meant: the declarations enqueued, and all that interferes. */
  datatype Scope = Scope(fleet: set<Decl>, log: seq<Step>)

  predicate Admits(w: Scope, t: Step) {
    t.Begin? && t.begin.Enqueue? ==> t.begin.decl in w.fleet
  }

  /** Some run within the scope ends in `s`. */
  ghost predicate Reachable(s: State, w: Scope) {
    exists trace, steps :: RunWithin(trace, steps, w) && trace[|steps|] == s
  }

  ghost predicate RunWithin(trace: seq<State>, steps: seq<Step>, w: Scope) {
    Run(trace, steps) && Interferences(steps) == w.log && forall k :: 0 <= k < |steps| ==> Admits(w, steps[k])
  }

  lemma {:induction false} InterferenceIsLogged(steps: seq<Step>, k: nat)
    requires k < |steps| && Interferes(steps[k])
    ensures steps[k] in Interferences(steps)
  {
    if k < |steps| - 1 { InterferenceIsLogged(steps[..|steps| - 1], k); }
  }

  lemma StartReachable(cfg: Config, i: Inst, x: string, w: Scope)
    requires ValidConfig(cfg) && w.log == []
    ensures Reachable(Start(cfg, i, x), w)
  {
    assert RunWithin([Start(cfg, i, x)], [], w);
  }

  lemma ReachableKeeps(s: State, w: Scope)
    requires Reachable(s, w)
    ensures Inv(s)
  {
    var trace, steps :| RunWithin(trace, steps, w) && trace[|steps|] == s;
    RunKeeps(trace, steps, |steps|);
  }

  /** A step of the queue's. */
  lemma Goes(w: Scope, s: State, t: Step) returns (r: State)
    requires Reachable(s, w) && Enabled(s, t) && Admits(w, t) && !Interferes(t)
    ensures Present(s) && r == Apply(s, t) && Reachable(r, w)
  {
    ReachableKeeps(s, w);
    ReachesOn(s, t, w);
    r := Apply(s, t);
  }

  lemma WorkerGoes(w: Scope, s: State, m: WorkMove) returns (r: State)
    requires Reachable(s, w) && WorkEnabled(s, PcOf(s, WORKER), m)
    ensures Present(s) && Enabled(s, Work(WORKER, m)) && Reachable(r, w)
    ensures r == WorkApply(s, WORKER, PcOf(s, WORKER), m)
  {
    r := Goes(w, s, Work(WORKER, m));
  }

  /** A step that interferes, and is logged. */
  lemma Intrudes(w: Scope, s: State, t: Step) returns (r: State)
    requires Reachable(s, w) && Enabled(s, t) && Interferes(t)
    ensures Present(s) && r == Apply(s, t) && Reachable(r, Plus(w, t))
  {
    ReachableKeeps(s, w);
    ReachesOn(s, t, w);
    r := Apply(s, t);
  }

  function Plus(w: Scope, t: Step): Scope {
    w.(log := w.log + [t])
  }

  function Logged(w: Scope, t: Step): Scope {
    if Interferes(t) then Plus(w, t) else w
  }

  lemma ReachesOn(s: State, t: Step, w: Scope)
    requires Reachable(s, w) && Present(s) && Enabled(s, t) && Admits(w, t)
    ensures Reachable(Apply(s, t), Logged(w, t))
  {
    var trace, steps :| RunWithin(trace, steps, w) && trace[|steps|] == s;
    var longer := Extends(trace, steps, t, w);
    Arrives(longer, steps + [t], Logged(w, t));
  }

  lemma Arrives(trace: seq<State>, steps: seq<Step>, w: Scope)
    requires RunWithin(trace, steps, w)
    ensures Reachable(trace[|steps|], w)
  {}

  lemma Extends(trace: seq<State>, steps: seq<Step>, t: Step, w: Scope) returns (longer: seq<State>)
    requires RunWithin(trace, steps, w) && Present(trace[|steps|]) && Enabled(trace[|steps|], t) && Admits(w, t)
    ensures RunWithin(longer, steps + [t], Logged(w, t)) && longer[|steps + [t]|] == Apply(trace[|steps|], t)
  {
    longer := trace + [Apply(trace[|steps|], t)];
    ExtendedRuns(trace, steps, longer, t);
    LogGrows(steps, t);
    ExtendedWithin(longer, steps, t, w);
  }

  lemma LogGrows(steps: seq<Step>, t: Step)
    ensures Interferences(steps + [t]) == Interferences(steps) + if Interferes(t) then [t] else []
  {
    assert (steps + [t])[..|steps|] == steps;
  }

  lemma ExtendedWithin(longer: seq<State>, steps: seq<Step>, t: Step, w: Scope)
    requires Run(longer, steps + [t]) && Interferences(steps + [t]) == Logged(w, t).log
    requires Admits(w, t) && forall k :: 0 <= k < |steps| ==> Admits(w, steps[k])
    ensures RunWithin(longer, steps + [t], Logged(w, t))
  {
    forall k | 0 <= k < |steps + [t]| ensures Admits(w, (steps + [t])[k]) {
      if k < |steps| { assert (steps + [t])[k] == steps[k]; }
    }
  }

  lemma ExtendedRuns(trace: seq<State>, steps: seq<Step>, longer: seq<State>, t: Step)
    requires Run(trace, steps) && Present(trace[|steps|]) && Enabled(trace[|steps|], t)
    requires longer == trace + [Apply(trace[|steps|], t)]
    ensures Run(longer, steps + [t]) && longer[|steps + [t]|] == Apply(trace[|steps|], t)
  {
    forall k | 0 <= k < |steps| + 1
      ensures Present(longer[k]) && Enabled(longer[k], (steps + [t])[k]) && longer[k + 1] == Apply(longer[k], (steps + [t])[k])
    {
      if k < |steps| { assert longer[k] == trace[k] && longer[k + 1] == trace[k + 1]; }
    }
  }

  // ----- stages -----

  /** No row yet; the caller and the worker are idle and the lock is free. */
  ghost predicate Empty(s: State, i: Inst) {
    && i in s.db && s.rows == map[] && s.slot == map[] && s.rowLock == map[] && i !in s.lock
    && s.nextPk == 0 && PcOf(s, CALLER).Idle? && PcOf(s, WORKER).Idle?
  }

  /** What stays as it was. */
  predicate SameElse(s: State, r: State) {
    PcOf(r, RIVAL) == PcOf(s, RIVAL)
  }

  /** The caller is inside its enqueue. */
  ghost predicate Within(s: State, i: Inst, b: Decl, phase: Phase) {
    && i in s.db && s.rows == map[] && s.rowLock == map[] && s.nextPk == 0
    && PcOf(s, CALLER).Enqueuing? && PcOf(s, CALLER).phase == phase
    && PcOf(s, CALLER).inst == i && PcOf(s, CALLER).decl == b
    && i in s.lock && s.lock[i] == PcOf(s, CALLER).tok
    && (phase.Locked? || phase.Checked? ==> s.slot == map[])
    && PcOf(s, WORKER).Idle?
  }

  /** The row is committed and nobody holds it. */
  ghost predicate Queued(s: State, i: Inst, b: Decl) {
    && i in s.db && s.rows.Keys == {ROW} && s.rows[ROW].inst == i && s.rows[ROW].decl == b
    && !s.rows[ROW].message.isCompleted && s.rowLock == map[]
    && PcOf(s, WORKER).Idle?
  }

  lemma Locks(w: Scope, s: State, i: Inst, b: Decl) returns (r: State)
    requires Reachable(s, w) && b in w.fleet && ValidDecl(b) && Empty(s, i)
    ensures Reachable(r, w) && Within(r, i, b, Locked) && SameElse(s, r) && r.db == s.db
  {
    r := Goes(w, s, Begin(CALLER, Enqueue(i, b)));
  }

  lemma Checks(w: Scope, s: State, i: Inst, b: Decl) returns (r: State)
    requires Reachable(s, w) && Within(s, i, b, Locked) && s.db[i] in b.sources
    ensures Reachable(r, w) && Within(r, i, b, Checked) && SameElse(s, r) && r.db == s.db
  {
    r := Goes(w, s, Enq(CALLER, CheckSource));
  }

  lemma Inserts(w: Scope, s: State, i: Inst, b: Decl) returns (r: State)
    requires Reachable(s, w) && Within(s, i, b, Checked)
    ensures Reachable(r, w) && Within(r, i, b, Inserted) && SameElse(s, r) && r.db == s.db
  {
    r := Goes(w, s, Enq(CALLER, Insert));
  }

  lemma Rechecks(w: Scope, s: State, i: Inst, b: Decl) returns (r: State)
    requires Reachable(s, w) && Within(s, i, b, Inserted) && s.db[i] in b.sources
    ensures Reachable(r, w) && Within(r, i, b, Rechecked) && SameElse(s, r) && r.db == s.db
  {
    r := Goes(w, s, Enq(CALLER, RecheckSource));
  }

  lemma Commits(w: Scope, s: State, i: Inst, b: Decl) returns (r: State)
    requires Reachable(s, w) && Within(s, i, b, Rechecked)
    ensures Reachable(r, w) && Queued(r, i, b) && SameElse(s, r) && r.db == s.db[i := Rest(b, s.db[i])]
    ensures PcOf(r, CALLER).Releasing? && PcOf(r, CALLER).inst == i && i in r.lock && r.lock[i] == PcOf(r, CALLER).tok
  {
    ReachableKeeps(s, w);
    CommitIsCommitted(s, CALLER);
    CommittedQueued(s, Apply(s, Enq(CALLER, CommitRow)), i, b);
    r := Goes(w, s, Enq(CALLER, CommitRow));
  }

  lemma CommittedQueued(s: State, r: State, i: Inst, b: Decl)
    requires Within(s, i, b, Rechecked) && RowCommitted(s, r, CALLER)
    ensures Queued(r, i, b) && SameElse(s, r) && r.db == s.db[i := Rest(b, s.db[i])]
    ensures PcOf(r, CALLER).Releasing? && PcOf(r, CALLER).inst == i && i in r.lock && r.lock[i] == PcOf(r, CALLER).tok
  {}

  lemma Unlocks(w: Scope, s: State, i: Inst, b: Decl) returns (r: State)
    requires Reachable(s, w) && Queued(s, i, b)
    requires PcOf(s, CALLER).Releasing? && PcOf(s, CALLER).inst == i && i in s.lock && s.lock[i] == PcOf(s, CALLER).tok
    ensures Reachable(r, w) && Queued(r, i, b) && SameElse(s, r) && r.db == s.db && i !in r.lock
  {
    r := Goes(w, s, Unlock(CALLER));
  }

  lemma Enqueued(w: Scope, s: State, i: Inst, b: Decl) returns (r: State)
    requires Reachable(s, w) && b in w.fleet && ValidDecl(b) && Empty(s, i) && s.db[i] in b.sources
    ensures Reachable(r, w) && Queued(r, i, b) && SameElse(s, r)
    ensures r.db == s.db[i := Rest(b, s.db[i])] && i !in r.lock
  {
    r := Locks(w, s, i, b);
    r := Checks(w, r, i, b);
    r := Inserts(w, r, i, b);
    r := Rechecks(w, r, i, b);
    r := Commits(w, r, i, b);
    r := Unlocks(w, r, i, b);
  }

  /** A worker holds the row. */
  ghost predicate Held(s: State, i: Inst, b: Decl, guarded: bool) {
    && i in s.db && s.rows.Keys == {ROW} && s.rows[ROW].inst == i && s.rows[ROW].decl == b
    && !s.rows[ROW].message.isCompleted
    && PcOf(s, WORKER) == Holding(Attempt, guarded, ROW)
  }

  lemma Stamps(w: Scope, s: State, i: Inst, b: Decl) returns (r: State)
    requires Reachable(s, w) && Queued(s, i, b)
    ensures Reachable(r, w) && SameElse(s, r) && r.db == s.db && r.lock == s.lock
    ensures r.rows.Keys == {ROW} && r.rows[ROW].inst == i && r.rows[ROW].decl == b && !r.rows[ROW].message.isCompleted
    ensures PcOf(r, WORKER) == Stamped(ROW) && r.rowLock == map[]
  {
    r := Goes(w, s, Begin(WORKER, StampAttempt(ROW)));
  }

  lemma Takes(w: Scope, s: State, i: Inst, b: Decl) returns (r: State)
    requires Reachable(s, w) && i in s.db && PcOf(s, WORKER) == Stamped(ROW) && s.rowLock == map[]
    requires s.rows.Keys == {ROW} && s.rows[ROW].inst == i && s.rows[ROW].decl == b && !s.rows[ROW].message.isCompleted
    ensures Reachable(r, w) && SameElse(s, r) && r.db == s.db && r.lock == s.lock && Held(r, i, b, false)
  {
    r := WorkerGoes(w, s, Take);
  }

  lemma Taken(w: Scope, s: State, i: Inst, b: Decl) returns (r: State)
    requires Reachable(s, w) && Queued(s, i, b)
    ensures Reachable(r, w) && SameElse(s, r) && r.db == s.db && r.lock == s.lock && Held(r, i, b, false)
  {
    r := Stamps(w, s, i, b);
    r := Takes(w, r, i, b);
  }

  // ----- the torn read -----

  /** A synchronous transition past its gate on `i`. */
  predicate Passed(s: State, a: Actor, i: Inst, d: Decl) {
    var pc := PcOf(s, a); pc.Syncing? && pc.passed && pc.inst == i && pc.decl == d
  }

  /** The two reads of the gate are not one: whenever a background transition's
      resting state is a source of a synchronous one, and one of its outcomes is
      not, the synchronous transition can pass its gate although the persisted
      state has left its sources, with nothing else interfering: no write from
      outside, no lock expired, no other synchronous caller. */
  lemma GateReadsCanTear(fleet: set<Decl>, cfg: Config, i: Inst, x: string, b: Decl, d: Decl, outcome: Option<string>)
    requires ValidConfig(cfg) && ValidDecl(b) && ValidDecl(d) && b in fleet && x in b.sources && Rest(b, x) in d.sources
    requires (outcome == b.target || outcome == b.failedState) && outcome.Some? && outcome.value !in d.sources
    ensures exists s :: Reachable(s, Scope(fleet, [Begin(RIVAL, Transition(i, d))])) && Passed(s, RIVAL, i, d)
                        && i in s.db && s.db[i] !in d.sources
  {
    var s := TornBetween(fleet, cfg, i, x, b, d, outcome);
  }

  /** Enqueue; the rival reads the state; the worker finishes; the rival reads the row. */
  lemma TornBetween(fleet: set<Decl>, cfg: Config, i: Inst, x: string, b: Decl, d: Decl, outcome: Option<string>) returns (s: State)
    requires ValidConfig(cfg) && ValidDecl(b) && ValidDecl(d) && b in fleet && x in b.sources && Rest(b, x) in d.sources
    requires (outcome == b.target || outcome == b.failedState) && outcome.Some? && outcome.value !in d.sources
    ensures Reachable(s, Scope(fleet, [Begin(RIVAL, Transition(i, d))])) && Passed(s, RIVAL, i, d)
    ensures i in s.db && s.db[i] !in d.sources
  {
    var w := Scope(fleet, []);
    StartReachable(cfg, i, x, w);
    s := Enqueued(w, Start(cfg, i, x), i, b);
    s := ReadAround(w, s, i, b, d, outcome);
  }

  lemma ReadAround(w: Scope, s: State, i: Inst, b: Decl, d: Decl, outcome: Option<string>) returns (r: State)
    requires Reachable(s, w) && ValidDecl(d) && Queued(s, i, b) && AtRest(b, s.db[i]) && s.db[i] in d.sources
    requires PcOf(s, RIVAL).Idle? && i !in s.lock
    requires (outcome == b.target || outcome == b.failedState) && outcome.Some?
    ensures Reachable(r, Begun(w, i, d)) && Passed(r, RIVAL, i, d) && i in r.db && r.db[i] == outcome.value
  {
    r := StateRead(w, s, i, b, d);
    r := RowReadLate(Begun(w, i, d), r, i, b, d, outcome);
  }

  lemma RowReadLate(w: Scope, s: State, i: Inst, b: Decl, d: Decl, outcome: Option<string>) returns (r: State)
    requires Reachable(s, w) && Queued(s, i, b) && AtRest(b, s.db[i]) && Reading(s, i, d)
    requires (outcome == b.target || outcome == b.failedState) && outcome.Some?
    ensures Reachable(r, w) && Passed(r, RIVAL, i, d) && i in r.db && r.db[i] == outcome.value
  {
    r := Taken(w, s, i, b);
    r := Finished(w, r, i, b, outcome);
    r := Goes(w, r, Sync(RIVAL, ReadRow));
  }

  /** The rival has read the state and not yet the row. */
  predicate Reading(s: State, i: Inst, d: Decl) {
    var pc := PcOf(s, RIVAL); pc.Syncing? && pc.read && !pc.passed && pc.inst == i && pc.decl == d
  }

  /** Nothing but the rival has moved. */
  predicate OnlyRival(s: State, r: State) {
    && r.db == s.db && r.rows == s.rows && r.slot == s.slot && r.rowLock == s.rowLock && r.nextPk == s.nextPk
    && PcOf(r, CALLER) == PcOf(s, CALLER) && PcOf(r, WORKER) == PcOf(s, WORKER)
  }

  /** The rival's transition on record. */
  function Begun(w: Scope, i: Inst, d: Decl): Scope {
    Plus(w, Begin(RIVAL, Transition(i, d)))
  }

  lemma StateRead(w: Scope, s: State, i: Inst, b: Decl, d: Decl) returns (r: State)
    requires Reachable(s, w) && ValidDecl(d) && Queued(s, i, b) && s.db[i] in d.sources
    requires PcOf(s, RIVAL).Idle? && i !in s.lock
    ensures Reachable(r, Begun(w, i, d)) && Queued(r, i, b) && r.db == s.db && Reading(r, i, d)
  {
    r := RivalLocks(w, s, i, d);
    r := RivalReads(Begun(w, i, d), r, i, d);
  }

  lemma Guards(w: Scope, s: State, i: Inst, b: Decl) returns (r: State)
    requires Reachable(s, w) && Held(s, i, b, false) && AtRest(b, s.db[i])
    ensures Reachable(r, w) && SameElse(s, r) && r.db == s.db && Held(r, i, b, true)
  {
    r := WorkerGoes(w, s, GuardState);
  }

  lemma Finished(w: Scope, s: State, i: Inst, b: Decl, outcome: Option<string>) returns (r: State)
    requires Reachable(s, w) && Held(s, i, b, false) && AtRest(b, s.db[i])
    requires (outcome == b.target || outcome == b.failedState) && outcome.Some?
    ensures Reachable(r, w) && SameElse(s, r) && r.db == s.db[i := outcome.value] && NoOpenRow(r, i)
  {
    r := Guards(w, s, i, b);
    if outcome == b.target { r := Lands(w, r, i, b); } else { r := FailsForGood(w, r, i, b); }
  }

  lemma Lands(w: Scope, s: State, i: Inst, b: Decl) returns (r: State)
    requires Reachable(s, w) && Held(s, i, b, true) && b.target.Some?
    ensures Reachable(r, w) && SameElse(s, r) && r.db == s.db[i := b.target.value] && NoOpenRow(r, i)
  {
    ReachableKeeps(s, w);
    SuccessWrites(s, i, b);
    r := WorkerGoes(w, s, WorkMove.Succeed);
  }

  lemma SuccessWrites(s: State, i: Inst, b: Decl)
    requires Present(s) && Held(s, i, b, true) && b.target.Some?
    ensures WorkEnabled(s, PcOf(s, WORKER), WorkMove.Succeed)
    ensures var r := WorkApply(s, WORKER, PcOf(s, WORKER), WorkMove.Succeed);
            SameElse(s, r) && r.db == s.db[i := b.target.value] && NoOpenRow(r, i)
  {
    SettledShape(s, WORKER, ROW, Op.Succeed);
  }

  lemma FailsForGood(w: Scope, s: State, i: Inst, b: Decl) returns (r: State)
    requires Reachable(s, w) && Held(s, i, b, true) && b.failedState.Some?
    ensures Reachable(r, w) && SameElse(s, r) && r.db == s.db[i := b.failedState.value] && NoOpenRow(r, i)
  {
    ReachableKeeps(s, w);
    FailureWrites(s, i, b);
    r := WorkerGoes(w, s, FailAttempt(true, true));
  }

  lemma FailureWrites(s: State, i: Inst, b: Decl)
    requires Present(s) && Held(s, i, b, true) && b.failedState.Some?
    ensures WorkEnabled(s, PcOf(s, WORKER), FailAttempt(true, true))
    ensures var r := WorkApply(s, WORKER, PcOf(s, WORKER), FailAttempt(true, true));
            SameElse(s, r) && r.db == s.db[i := b.failedState.value] && NoOpenRow(r, i)
  {
    SettledShape(s, WORKER, ROW, Fail(true));
  }

  // ----- what supersedes -----

  lemma Superseding(w: Scope, s: State, i: Inst, b: Decl) returns (r: State)
    requires Reachable(s, w) && Queued(s, i, b) && !AtRest(b, s.db[i])
    ensures Reachable(r, w) && SameElse(s, r)
    ensures HasSuperseded(r, i)
  {
    r := Taken(w, s, i, b);
    r := Rejects(w, r, i, b);
  }

  lemma Rejects(w: Scope, s: State, i: Inst, b: Decl) returns (r: State)
    requires Reachable(s, w) && Held(s, i, b, false) && !AtRest(b, s.db[i])
    ensures Reachable(r, w) && SameElse(s, r)
    ensures HasSuperseded(r, i)
  {
    ReachableKeeps(s, w);
    GuardRejects(s, i, b);
    r := WorkerGoes(w, s, GuardState);
  }

  lemma GuardRejects(s: State, i: Inst, b: Decl)
    requires Present(s) && Held(s, i, b, false) && !AtRest(b, s.db[i])
    ensures WorkEnabled(s, PcOf(s, WORKER), GuardState)
    ensures var r := WorkApply(s, WORKER, PcOf(s, WORKER), GuardState);
            SameElse(s, r) && ROW in r.rows && r.rows[ROW].inst == i && r.rows[ROW].message.note == SupersededNote
  {
    SettledShape(s, WORKER, ROW, Supersede);
  }

  predicate HasSuperseded(s: State, i: Inst) {
    ROW in s.rows && s.rows[ROW].inst == i && s.rows[ROW].message.note == SupersededNote
  }

  /** One write from outside, to any state the row does not rest in, supersedes
      it, with nothing else interfering. */
  lemma OutsideWriteSupersedes(cfg: Config, i: Inst, x: string, b: Decl, v: string)
    requires ValidConfig(cfg) && ValidDecl(b) && x in b.sources && !AtRest(b, v)
    ensures exists s :: Reachable(s, Scope({b}, [ExternalWrite(i, v)])) && HasSuperseded(s, i)
  {
    var w := Scope({b}, []);
    StartReachable(cfg, i, x, w);
    var s := Enqueued(w, Start(cfg, i, x), i, b);
    s := WrittenOutside(w, s, i, b, v);
    assert Plus(w, ExternalWrite(i, v)) == Scope({b}, [ExternalWrite(i, v)]);
  }

  lemma WrittenOutside(w: Scope, s: State, i: Inst, b: Decl, v: string) returns (r: State)
    requires Reachable(s, w) && Queued(s, i, b) && !AtRest(b, v)
    ensures Reachable(r, Plus(w, ExternalWrite(i, v))) && HasSuperseded(r, i)
  {
    r := MovedFromOutside(w, s, i, b, v);
    r := Superseding(Plus(w, ExternalWrite(i, v)), r, i, b);
  }

  lemma MovedFromOutside(w: Scope, s: State, i: Inst, b: Decl, v: string) returns (r: State)
    requires Reachable(s, w) && Queued(s, i, b)
    ensures Reachable(r, Plus(w, ExternalWrite(i, v))) && Queued(r, i, b) && r.db == s.db[i := v]
  {
    r := Intrudes(w, s, ExternalWrite(i, v));
  }

  /** A transition of `d` passed its gate, lost its lock, and writes `v` late. */
  function LateWrite(i: Inst, d: Decl, v: string): seq<Step> {
    [Begin(RIVAL, Transition(i, d)), ExpireHeld(RIVAL), Sync(RIVAL, WriteState(v))]
  }

  /** So does a synchronous transition whose lock expired between its gate and its
      write of `v`, with nothing else interfering. */
  lemma ExpiredLockSupersedes(cfg: Config, i: Inst, x: string, b: Decl, d: Decl, v: string)
    requires ValidConfig(cfg) && ValidDecl(b) && ValidDecl(d) && x in b.sources && x in d.sources && !AtRest(b, v)
    ensures exists s :: Reachable(s, Scope({b}, LateWrite(i, d, v))) && HasSuperseded(s, i)
  {
    var s := LateRun(Scope({b}, []), cfg, i, x, b, d, v);
    LateLog({b}, i, d, v);
  }

  lemma LateRun(w: Scope, cfg: Config, i: Inst, x: string, b: Decl, d: Decl, v: string) returns (s: State)
    requires w.log == [] && b in w.fleet && ValidConfig(cfg) && ValidDecl(b) && ValidDecl(d)
    requires x in b.sources && x in d.sources && !AtRest(b, v)
    ensures Reachable(s, Plus(Lost(w, i, d), Sync(RIVAL, WriteState(v)))) && HasSuperseded(s, i)
  {
    StartReachable(cfg, i, x, w);
    s := GatePassedThenExpired(w, Start(cfg, i, x), i, d);
    s := LateWriteSupersedes(Lost(w, i, d), s, i, b, d, v);
  }

  lemma LateLog(fleet: set<Decl>, i: Inst, d: Decl, v: string)
    ensures Plus(Lost(Scope(fleet, []), i, d), Sync(RIVAL, WriteState(v))) == Scope(fleet, LateWrite(i, d, v))
  {}

  /** The rival's lock has expired too. */
  function Lost(w: Scope, i: Inst, d: Decl): Scope {
    Plus(Begun(w, i, d), ExpireHeld(RIVAL))
  }

  lemma LateWriteSupersedes(w: Scope, s: State, i: Inst, b: Decl, d: Decl, v: string) returns (r: State)
    requires Reachable(s, w) && b in w.fleet && ValidDecl(b) && Empty(s, i) && s.db[i] in b.sources
    requires Passed(s, RIVAL, i, d) && !AtRest(b, v)
    ensures Reachable(r, Plus(w, Sync(RIVAL, WriteState(v))))
    ensures HasSuperseded(r, i)
  {
    r := Enqueued(w, s, i, b);
    r := WritesLate(w, r, i, b, d, v);
    r := Superseding(Plus(w, Sync(RIVAL, WriteState(v))), r, i, b);
  }

  lemma GateRead(w: Scope, s: State, i: Inst, d: Decl) returns (r: State)
    requires Reachable(s, w) && ValidDecl(d) && Empty(s, i) && s.db[i] in d.sources && PcOf(s, RIVAL).Idle?
    ensures Reachable(r, Begun(w, i, d))
    ensures OnlyRival(s, r) && Reading(r, i, d) && i in r.lock && r.lock[i] == PcOf(r, RIVAL).tok
  {
    r := RivalLocks(w, s, i, d);
    r := RivalReads(Begun(w, i, d), r, i, d);
  }

  lemma RivalLocks(w: Scope, s: State, i: Inst, d: Decl) returns (r: State)
    requires Reachable(s, w) && ValidDecl(d) && i in s.db && i !in s.lock && PcOf(s, RIVAL).Idle?
    ensures Reachable(r, Begun(w, i, d))
    ensures OnlyRival(s, r)
    ensures var pc := PcOf(r, RIVAL);
            && pc.Syncing? && !pc.read && !pc.passed && pc.inst == i && pc.decl == d
            && i in r.lock && r.lock[i] == pc.tok
  {
    r := Intrudes(w, s, Begin(RIVAL, Transition(i, d)));
  }

  lemma RivalReads(w: Scope, s: State, i: Inst, d: Decl) returns (r: State)
    requires Reachable(s, w) && i in s.db && s.db[i] in d.sources
    requires var pc := PcOf(s, RIVAL); pc.Syncing? && !pc.read && !pc.passed && pc.inst == i && pc.decl == d
    ensures Reachable(r, w) && OnlyRival(s, r) && r.lock == s.lock
    ensures Reading(r, i, d) && PcOf(r, RIVAL).tok == PcOf(s, RIVAL).tok
  {
    r := Goes(w, s, Sync(RIVAL, ReadState));
  }

  lemma GatePassed(w: Scope, s: State, i: Inst, d: Decl) returns (r: State)
    requires Reachable(s, w) && ValidDecl(d) && Empty(s, i) && s.db[i] in d.sources && PcOf(s, RIVAL).Idle?
    ensures Reachable(r, Begun(w, i, d))
    ensures OnlyRival(s, r) && Passed(r, RIVAL, i, d)
    ensures i in r.lock && r.lock[i] == PcOf(r, RIVAL).tok
  {
    r := GateRead(w, s, i, d);
    r := RivalPasses(Begun(w, i, d), r, i, d);
  }

  lemma RivalPasses(w: Scope, s: State, i: Inst, d: Decl) returns (r: State)
    requires Reachable(s, w) && i in s.db && s.rows == map[] && Reading(s, i, d)
    ensures Reachable(r, w) && OnlyRival(s, r) && r.lock == s.lock
    ensures Passed(r, RIVAL, i, d) && PcOf(r, RIVAL).tok == PcOf(s, RIVAL).tok
  {
    r := Goes(w, s, Sync(RIVAL, ReadRow));
  }

  lemma GatePassedThenExpired(w: Scope, s: State, i: Inst, d: Decl) returns (r: State)
    requires Reachable(s, w) && ValidDecl(d) && Empty(s, i) && s.db[i] in d.sources && PcOf(s, RIVAL).Idle?
    ensures Reachable(r, Lost(w, i, d))
    ensures Empty(r, i) && Passed(r, RIVAL, i, d) && r.db == s.db
  {
    r := GatePassed(w, s, i, d);
    r := Expires(Begun(w, i, d), r, i, d);
  }

  lemma Expires(w: Scope, s: State, i: Inst, d: Decl) returns (r: State)
    requires Reachable(s, w) && Passed(s, RIVAL, i, d) && i in s.lock && s.lock[i] == PcOf(s, RIVAL).tok
    ensures Reachable(r, Plus(w, ExpireHeld(RIVAL))) && Passed(r, RIVAL, i, d) && i !in r.lock
    ensures OnlyRival(s, r)
  {
    r := Intrudes(w, s, ExpireHeld(RIVAL));
  }

  lemma WritesLate(w: Scope, s: State, i: Inst, b: Decl, d: Decl, v: string) returns (r: State)
    requires Reachable(s, w) && Passed(s, RIVAL, i, d) && Queued(s, i, b)
    ensures Reachable(r, Plus(w, Sync(RIVAL, WriteState(v)))) && Queued(r, i, b) && r.db == s.db[i := v]
  {
    r := Intrudes(w, s, Sync(RIVAL, WriteState(v)));
  }
}
