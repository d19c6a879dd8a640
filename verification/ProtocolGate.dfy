/** When the synchronous gate's source check can be trusted: a condition on
    declarations alone, necessary and sufficient. */
module ProtocolGate {
  import opened Wrappers
  import opened Messages
  import opened Protocol
  import opened ProtocolInvariant
  import opened ProtocolRuns
  import opened ProtocolFrames
  import opened ProtocolCalm
  import opened ProtocolTheorems
  import opened ProtocolWitnesses

  /** A row of `b` can rest in a source of `d`. */
  ghost predicate CanRest(b: Decl, d: Decl) {
    if b.inProgress.Some? then b.inProgress.value in d.sources else exists x :: x in b.sources && x in d.sources
  }

  predicate EndsWithin(outcome: Option<string>, d: Decl) {
    outcome.None? || outcome.value in d.sources
  }

  /** Every background declaration that can rest in a source of `d` also ends in one. */
  ghost predicate Compatible(fleet: set<Decl>, d: Decl) {
    forall b :: b in fleet && CanRest(b, d) ==> EndsWithin(b.target, d) && EndsWithin(b.failedState, d)
  }

  /** A run on which the background transitions of `i` come from `fleet`, and
      nothing from outside writes `i` and no caller there loses its lock. What
      happens on other instances is arbitrary. */
  ghost predicate OrdinaryOn(trace: seq<State>, steps: seq<Step>, i: Inst, fleet: set<Decl>) {
    && Run(trace, steps)
    && forall k :: 0 <= k < |steps| ==> Ordinary(trace[k], steps[k], i, fleet)
  }

  ghost predicate Ordinary(s: State, t: Step, i: Inst, fleet: set<Decl>) {
    Calm(s, t, i) && (t.Begin? && t.begin.Enqueue? && t.begin.i == i ==> t.begin.decl in fleet)
  }

  /** In every such run, whoever is past the gate of `d` and still holds its lock
      finds the persisted state in a source. */
  ghost predicate GateSound(fleet: set<Decl>, d: Decl) {
    forall trace: seq<State>, steps: seq<Step>, a, i ::
      OrdinaryOn(trace, steps, i, fleet) && LocksKept(trace[|steps|], i) && Passed(trace[|steps|], a, i, d) ==>
        i in trace[|steps|].db && trace[|steps|].db[i] in d.sources
  }

  // ----- what such runs keep -----

  /** An outcome foreseen by `d` belongs to a declaration that can rest in one of its sources. */
  ghost predicate Justified(pc: Pc, fleet: set<Decl>)
    requires pc.Syncing?
  {
    forall o :: o in pc.outcomes ==> exists b :: b in fleet && CanRest(b, pc.decl) && (o == b.target || o == b.failedState)
  }

  ghost predicate Carries(pc: Pc, i: Inst, fleet: set<Decl>) {
    InSection(pc) && pc.inst == i ==> (pc.Enqueuing? ==> pc.decl in fleet) && (pc.Syncing? ==> Justified(pc, fleet))
  }

  ghost predicate RowsFrom(s: State, i: Inst, fleet: set<Decl>) {
    forall pk :: pk in s.rows && s.rows[pk].inst == i ==> s.rows[pk].decl in fleet && pk !in s.disturbed
  }

  ghost predicate PlainOn(s: State, i: Inst, fleet: set<Decl>) {
    && (forall a :: a in s.pcs ==> Carries(s.pcs[a], i, fleet))
    && RowsFrom(s, i, fleet)
    && Untouched(s, i)
  }

  lemma PlainRows(s: State, t: Step, i: Inst, fleet: set<Decl>)
    requires Inv(s) && Enabled(s, t) && PlainOn(s, i, fleet) && Ordinary(s, t, i, fleet)
    ensures RowsFrom(Apply(s, t), i, fleet) && Untouched(Apply(s, t), i)
  {
    var r := Apply(s, t);
    CalmStep(s, t, i);
    StepFramed(s, t);
    if IsCommit(s, t) {
      CommitIsCommitted(s, t.a);
      assert Carries(s.pcs[t.a], i, fleet);
    }
    forall pk | pk in r.rows && r.rows[pk].inst == i ensures r.rows[pk].decl in fleet && pk !in r.disturbed {
      RowFrom(s, r, t, i, fleet, pk);
    }
  }

  lemma RowFrom(s: State, r: State, t: Step, i: Inst, fleet: set<Decl>, pk: Pk)
    requires Declared(s) && RowsFrom(s, i, fleet) && RowsFramed(s, r, t) && pk in r.rows && r.rows[pk].inst == i
    requires IsCommit(s, t) ==> RowCommitted(s, r, t.a) && Carries(PcOf(s, t.a), i, fleet)
    requires RowUndisturbed(s, pk, i) ==> RowUndisturbed(r, pk, i)
    ensures r.rows[pk].decl in fleet && pk !in r.disturbed
  {
    if pk in s.rows { assert RowFramed(s.rows[pk], r.rows[pk], s.now); }
  }

  /** What an enqueue carries and what a read foresees only change by a new look. */
  predicate PcSame(o: Pc, pc: Pc) {
    && (pc.Enqueuing? ==> o.Enqueuing? && o.decl == pc.decl && o.inst == pc.inst)
    && (pc.Syncing? ==> o.Syncing? && o.decl == pc.decl && o.inst == pc.inst && o.outcomes == pc.outcomes)
  }

  lemma EnqueueSame(s: State, a: Actor, m: EnqueueMove)
    requires Present(s) && Declared(s) && Enabled(s, Enq(a, m))
    ensures PcSame(PcOf(s, a), PcOf(Apply(s, Enq(a, m)), a))
  {
    if m.CommitRow? { CommitIsCommitted(s, a); } else { CheckSame(s, a, m); }
  }

  lemma CheckSame(s: State, a: Actor, m: EnqueueMove)
    requires Present(s) && Enabled(s, Enq(a, m)) && !m.CommitRow?
    ensures PcSame(PcOf(s, a), PcOf(EnqueueApply(s, a, PcOf(s, a), m), a))
  {
    if m.CheckSource? || m.RecheckSource? { SourceCheckSame(s, a, m); }
  }

  lemma SourceCheckSame(s: State, a: Actor, m: EnqueueMove)
    requires Present(s) && Enabled(s, Enq(a, m)) && (m.CheckSource? || m.RecheckSource?)
    ensures PcSame(PcOf(s, a), PcOf(EnqueueApply(s, a, PcOf(s, a), m), a))
  {}

  lemma SyncSame(s: State, a: Actor, m: SyncMove)
    requires Present(s) && Enabled(s, Sync(a, m)) && !m.ReadState?
    ensures PcSame(PcOf(s, a), PcOf(Apply(s, Sync(a, m)), a))
  {}

  lemma ReadCarries(s: State, a: Actor, i: Inst, fleet: set<Decl>)
    requires Inv(s) && PlainOn(s, i, fleet) && Enabled(s, Sync(a, ReadState))
    ensures Carries(PcOf(Apply(s, Sync(a, ReadState)), a), i, fleet)
  {
    var pc := PcOf(Apply(s, Sync(a, ReadState)), a);
    if pc.Syncing? {
      ReadForesees(s, a);
      if pc.inst == i { OutcomesJustified(s, i, pc.decl, fleet); }
    } else {
      ReadLeaves(s, a);
    }
  }

  lemma ReadLeaves(s: State, a: Actor)
    requires Present(s) && Enabled(s, Sync(a, ReadState)) && !PcOf(SyncApply(s, a, PcOf(s, a), ReadState), a).Syncing?
    ensures PcOf(SyncApply(s, a, PcOf(s, a), ReadState), a).Releasing?
  {}

  lemma ReadForesees(s: State, a: Actor)
    requires Present(s) && Enabled(s, Sync(a, ReadState)) && PcOf(Apply(s, Sync(a, ReadState)), a).Syncing?
    ensures var o, pc := PcOf(s, a), PcOf(Apply(s, Sync(a, ReadState)), a);
            pc.decl == o.decl && pc.inst == o.inst && pc.outcomes == Outcomes(s, o.inst) && s.db[o.inst] in o.decl.sources
  {}

  lemma OutcomesJustified(s: State, i: Inst, d: Decl, fleet: set<Decl>)
    requires Present(s) && InPlace(s) && i in s.db && s.db[i] in d.sources && RowsFrom(s, i, fleet)
    ensures forall o :: o in Outcomes(s, i) ==> exists b :: b in fleet && CanRest(b, d) && (o == b.target || o == b.failedState)
  {
    forall o | o in Outcomes(s, i) ensures exists b :: b in fleet && CanRest(b, d) && (o == b.target || o == b.failedState) {
      var pk :| pk in s.rows && OpenOn(s, pk, i) && (o == s.rows[pk].decl.target || o == s.rows[pk].decl.failedState);
      assert Uncompleted(s, pk) && AtRest(s.rows[pk].decl, s.db[i]);
      assert CanRest(s.rows[pk].decl, d);
    }
  }

  lemma BeginCarries(s: State, a: Actor, b: Beginning, i: Inst, fleet: set<Decl>)
    requires Present(s) && Enabled(s, Begin(a, b)) && (b.Enqueue? && b.i == i ==> b.decl in fleet)
    ensures Carries(PcOf(Apply(s, Begin(a, b)), a), i, fleet)
  {}

  lemma ActorCarries(s: State, t: Step, i: Inst, fleet: set<Decl>)
    requires Inv(s) && Enabled(s, t) && PlainOn(s, i, fleet) && Ordinary(s, t, i, fleet) && !IsEnvironment(t)
    ensures Carries(PcOf(Apply(s, t), t.a), i, fleet)
  {
    match t
    case Begin(a, b) => BeginCarries(s, a, b, i, fleet);
    case Enq(a, m) =>
      EnqueueSame(s, a, m);
      SameCarries(s, t, i, fleet);
    case Sync(a, m) =>
      if m.ReadState? {
        ReadCarries(s, a, i, fleet);
      } else {
        SyncSame(s, a, m);
        SameCarries(s, t, i, fleet);
      }
    case _ => OthersCarryNothing(s, t);
  }

  lemma OthersCarryNothing(s: State, t: Step)
    requires Present(s) && RowsHeld(s) && Enabled(s, t) && (t.Act? || t.Work? || t.Crash? || t.Unlock?)
    ensures var pc := PcOf(Apply(s, t), t.a); !pc.Enqueuing? && !pc.Syncing?
  {
    match t
    case Act(a, m) => ActionCarriesNothing(s, a, m);
    case Work(a, m) => WorkEnds(s, a, m);
    case Crash(a, noticed) => CrashShape(s, a, noticed);
    case _ =>
  }

  lemma ActionCarriesNothing(s: State, a: Actor, m: ActionMove)
    requires Present(s) && Enabled(s, Act(a, m))
    ensures var pc := PcOf(ActionApply(s, a, PcOf(s, a), m), a); !pc.Enqueuing? && !pc.Syncing?
  {}

  lemma SameCarries(s: State, t: Step, i: Inst, fleet: set<Decl>)
    requires Present(s) && Enabled(s, t) && PlainOn(s, i, fleet) && (t.Enq? || t.Sync?)
    requires PcSame(PcOf(s, t.a), PcOf(Apply(s, t), t.a))
    ensures Carries(PcOf(Apply(s, t), t.a), i, fleet)
  {
    assert Carries(s.pcs[t.a], i, fleet);
  }

  lemma PlainStep(s: State, t: Step, i: Inst, fleet: set<Decl>)
    requires Inv(s) && Enabled(s, t) && PlainOn(s, i, fleet) && Ordinary(s, t, i, fleet)
    ensures PlainOn(Apply(s, t), i, fleet)
  {
    var r := Apply(s, t);
    PlainRows(s, t, i, fleet);
    StepFramed(s, t);
    if !IsEnvironment(t) { ActorCarries(s, t, i, fleet); }
    PlainCarries(s, r, t, i, fleet);
  }

  lemma PlainCarries(s: State, r: State, t: Step, i: Inst, fleet: set<Decl>)
    requires ActorsFramed(s, r, t) && forall a :: a in s.pcs ==> Carries(s.pcs[a], i, fleet)
    requires !IsEnvironment(t) ==> Carries(PcOf(r, t.a), i, fleet)
    ensures forall a :: a in r.pcs ==> Carries(r.pcs[a], i, fleet)
  {
    forall a | a in r.pcs ensures Carries(r.pcs[a], i, fleet) {
      if IsEnvironment(t) || a != t.a { assert PcOf(r, a) == PcOf(s, a); }
    }
  }

  lemma {:induction false} PlainThroughout(trace: seq<State>, steps: seq<Step>, n: nat, i: Inst, fleet: set<Decl>)
    requires OrdinaryOn(trace, steps, i, fleet) && n < |trace|
    ensures PlainOn(trace[n], i, fleet)
  {
    if n > 0 {
      PlainThroughout(trace, steps, n - 1, i, fleet);
      PlainRunStep(trace, steps, n - 1, i, fleet);
    }
  }

  lemma PlainRunStep(trace: seq<State>, steps: seq<Step>, n: nat, i: Inst, fleet: set<Decl>)
    requires OrdinaryOn(trace, steps, i, fleet) && n < |steps| && PlainOn(trace[n], i, fleet)
    ensures PlainOn(trace[n + 1], i, fleet)
  {
    RunKeeps(trace, steps, n);
    PlainStep(trace[n], steps[n], i, fleet);
  }

  // ----- the condition suffices -----

  lemma CompatibleIsSound(fleet: set<Decl>, d: Decl, trace: seq<State>, steps: seq<Step>, a: Actor, i: Inst)
    requires Compatible(fleet, d) && OrdinaryOn(trace, steps, i, fleet)
    requires LocksKept(trace[|steps|], i) && Passed(trace[|steps|], a, i, d)
    ensures i in trace[|steps|].db && trace[|steps|].db[i] in d.sources
  {
    RunKeeps(trace, steps, |steps|);
    PlainThroughout(trace, steps, |steps|, i, fleet);
    PlainGate(trace[|steps|], a, i, d, fleet);
  }

  lemma PlainGate(s: State, a: Actor, i: Inst, d: Decl, fleet: set<Decl>)
    requires Inv(s) && PlainOn(s, i, fleet) && LocksKept(s, i) && Passed(s, a, i, d) && Compatible(fleet, d)
    ensures i in s.db && s.db[i] in d.sources
  {
    assert a in s.pcs && Carries(s.pcs[a], i, fleet) && HoldsLock(s, s.pcs[a]);
    GateHolds(s, a);
    if Some(s.db[i]) in s.pcs[a].outcomes {
      var b :| b in fleet && CanRest(b, d) && (Some(s.db[i]) == b.target || Some(s.db[i]) == b.failedState);
    }
  }

  // ----- and it is needed -----

  /** Nobody has lost a lock. */
  ghost predicate AllLocksKept(s: State) {
    forall a :: a in s.pcs && InSection(s.pcs[a]) ==> HoldsLock(s, s.pcs[a])
  }

  lemma LocksStay(s: State, t: Step, a: Actor)
    requires Inv(s) && Enabled(s, t) && AllLocksKept(s) && !t.ExpireHeld?
    requires a in Apply(s, t).pcs && InSection(Apply(s, t).pcs[a])
    ensures HoldsLock(Apply(s, t), Apply(s, t).pcs[a])
  {
    var r := Apply(s, t);
    StepFramed(s, t);
    if !IsEnvironment(t) && t.a == a {
      if t.Begin? { BeginHolds(s, a, t.begin); } else { OwnLockStays(s, t); }
    } else {
      assert PcOf(r, a) == PcOf(s, a);
      OthersLockStays(s, r, t, a);
    }
  }

  lemma BeginHolds(s: State, a: Actor, b: Beginning)
    requires Present(s) && Enabled(s, Begin(a, b)) && InSection(PcOf(Apply(s, Begin(a, b)), a))
    ensures HoldsLock(Apply(s, Begin(a, b)), PcOf(Apply(s, Begin(a, b)), a))
  {}

  lemma OwnLockStays(s: State, t: Step)
    requires Present(s) && RowsHeld(s) && Declared(s) && Enabled(s, t) && !IsEnvironment(t) && !t.Begin?
    requires InSection(PcOf(Apply(s, t), t.a))
    ensures InSection(PcOf(s, t.a)) && (HoldsLock(s, PcOf(s, t.a)) ==> HoldsLock(Apply(s, t), PcOf(Apply(s, t), t.a)))
  {
    match t
    case Enq(a, m) => if m.CommitRow? { CommitIsCommitted(s, a); } else { EnqueueMoves(s, a, m); }
    case Sync(a, m) => SyncMoves(s, a, m);
    case Act(a, m) => ActionMoves(s, a, m);
    case Work(a, m) => WorkEnds(s, a, m);
    case Crash(a, noticed) => CrashShape(s, a, noticed);
    case _ =>
  }

  lemma OthersLockStays(s: State, r: State, t: Step, a: Actor)
    requires TokensDistinct(s) && Enabled(s, t) && !t.ExpireHeld? && LocksFramed(s, r, t)
    requires a in s.pcs && InSection(s.pcs[a]) && HoldsLock(s, s.pcs[a]) && (IsEnvironment(t) || t.a != a)
    ensures HoldsLock(r, s.pcs[a])
  {}

  lemma {:induction false} LocksThroughout(trace: seq<State>, steps: seq<Step>, n: nat, w: Scope)
    requires RunWithin(trace, steps, w) && n < |trace| && forall t :: t in w.log ==> !t.ExpireHeld?
    ensures AllLocksKept(trace[n])
  {
    if n > 0 {
      LocksThroughout(trace, steps, n - 1, w);
      RunKeeps(trace, steps, n - 1);
      if Interferes(steps[n - 1]) { InterferenceIsLogged(steps, n - 1); }
      LocksStep(trace[n - 1], steps[n - 1]);
    }
  }

  lemma LocksStep(s: State, t: Step)
    requires Inv(s) && Enabled(s, t) && AllLocksKept(s) && !t.ExpireHeld?
    ensures AllLocksKept(Apply(s, t))
  {
    forall a | a in Apply(s, t).pcs && InSection(Apply(s, t).pcs[a]) ensures HoldsLock(Apply(s, t), Apply(s, t).pcs[a]) {
      LocksStay(s, t, a);
    }
  }

  /** The torn runs of `GateReadsCanTear` are ordinary. */
  lemma ScopedIsOrdinary(trace: seq<State>, steps: seq<Step>, i: Inst, w: Scope)
    requires RunWithin(trace, steps, w) && forall t :: t in w.log ==> !t.ExpireHeld? && !t.ExternalWrite?
    ensures OrdinaryOn(trace, steps, i, w.fleet) && LocksKept(trace[|steps|], i)
  {
    forall k | 0 <= k < |steps| ensures Ordinary(trace[k], steps[k], i, w.fleet) {
      LocksThroughout(trace, steps, k, w);
      assert Admits(w, steps[k]);
      if Interferes(steps[k]) { InterferenceIsLogged(steps, k); }
    }
    LocksThroughout(trace, steps, |steps|, w);
  }

  lemma TornIsUnsound(fleet: set<Decl>, b: Decl, d: Decl, x: string, outcome: Option<string>)
    requires ValidDecl(b) && ValidDecl(d) && b in fleet && x in b.sources && Rest(b, x) in d.sources
    requires (outcome == b.target || outcome == b.failedState) && !EndsWithin(outcome, d)
    ensures !GateSound(fleet, d)
  {
    var trace, steps := TornRun(fleet, b, d, x, Inst(0), outcome);
  }

  lemma TornRun(fleet: set<Decl>, b: Decl, d: Decl, x: string, i: Inst, outcome: Option<string>)
    returns (trace: seq<State>, steps: seq<Step>)
    requires ValidDecl(b) && ValidDecl(d) && b in fleet && x in b.sources && Rest(b, x) in d.sources
    requires (outcome == b.target || outcome == b.failedState) && !EndsWithin(outcome, d)
    ensures OrdinaryOn(trace, steps, i, fleet) && LocksKept(trace[|steps|], i) && Passed(trace[|steps|], RIVAL, i, d)
    ensures i in trace[|steps|].db && trace[|steps|].db[i] !in d.sources
  {
    var w := Scope(fleet, [Begin(RIVAL, Transition(i, d))]);
    var s := TornBetween(fleet, Config(1, 0), i, x, b, d, outcome);
    trace, steps :| RunWithin(trace, steps, w) && trace[|steps|] == s;
    ScopedIsOrdinary(trace, steps, i, w);
  }

  lemma SoundOnlyIfCompatible(fleet: set<Decl>, d: Decl, b: Decl)
    requires ValidDecl(d) && ValidDecl(b) && b in fleet && CanRest(b, d) && GateSound(fleet, d)
    ensures EndsWithin(b.target, d) && EndsWithin(b.failedState, d)
  {
    var x: string;
    if b.inProgress.Some? { x := b.inProgress.value; } else { x :| x in b.sources && x in d.sources; }
    if !EndsWithin(b.target, d) { TornIsUnsound(fleet, b, d, x, b.target); }
    else if !EndsWithin(b.failedState, d) { TornIsUnsound(fleet, b, d, x, b.failedState); }
  }

  /** The gate reads the state and the row one after the other. Its source check
      still holds once the gate has passed, in every run whose instance nothing
      outside writes and whose callers keep their locks, if and only if every
      background declaration in use that can rest in a source of `d` has its
      target and its `failed_state` among the sources of `d`. */
  lemma GateIsSoundIffCompatible(fleet: set<Decl>, d: Decl)
    requires ValidDecl(d) && forall b :: b in fleet ==> ValidDecl(b)
    ensures GateSound(fleet, d) <==> Compatible(fleet, d)
  {
    if Compatible(fleet, d) {
      forall trace: seq<State>, steps: seq<Step>, a, i
        | OrdinaryOn(trace, steps, i, fleet) && LocksKept(trace[|steps|], i) && Passed(trace[|steps|], a, i, d)
        ensures i in trace[|steps|].db && trace[|steps|].db[i] in d.sources
      {
        CompatibleIsSound(fleet, d, trace, steps, a, i);
      }
    }
    if GateSound(fleet, d) {
      forall b | b in fleet && CanRest(b, d) ensures EndsWithin(b.target, d) && EndsWithin(b.failedState, d) {
        SoundOnlyIfCompatible(fleet, d, b);
      }
    }
  }
}
