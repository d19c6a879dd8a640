/** Stretches of a run in which nothing from outside writes an instance and no
    caller there has lost its lock: nobody on it is disturbed. */
module ProtocolCalm {
  import opened Messages
  import opened Protocol
  import opened ProtocolInvariant
  import opened ProtocolRuns
  import opened ProtocolFrames

  /** Every caller in a section on `i` still holds the lock it took. */
  ghost predicate LocksKept(s: State, i: Inst) {
    forall b :: b in s.pcs && InSection(s.pcs[b]) && s.pcs[b].inst == i ==> HoldsLock(s, s.pcs[b])
  }

  ghost predicate Calm(s: State, t: Step, i: Inst) {
    LocksKept(s, i) && !(t.ExternalWrite? && t.i == i)
  }

  /** Nobody moved the instance, or queued on it, since each caller there looked. */
  ghost predicate Untouched(s: State, i: Inst) {
    forall b :: b in s.touched && b in s.pcs && InSection(s.pcs[b]) ==> s.pcs[b].inst != i
  }

  ghost predicate RowUndisturbed(s: State, pk: Pk, i: Inst) {
    pk in s.disturbed && pk in s.rows ==> s.rows[pk].inst != i
  }

  /** One lock, one caller. */
  lemma OneCaller(s: State, a: Actor, b: Actor, i: Inst)
    requires TokensDistinct(s) && LocksKept(s, i)
    requires a in s.pcs && InSection(s.pcs[a]) && s.pcs[a].inst == i
    requires b in s.pcs && InSection(s.pcs[b]) && s.pcs[b].inst == i
    ensures a == b
  {
    assert HoldsLock(s, s.pcs[a]) && HoldsLock(s, s.pcs[b]);
  }

  lemma CalmTouchesNobody(s: State, r: State, t: Step, i: Inst)
    requires TokensDistinct(s) && DisturbancesFramed(s, r, t) && ActorsFramed(s, r, t) && StaysInSection(s, r, t)
    requires Calm(s, t, i) && Untouched(s, i)
    ensures Untouched(r, i)
  {
    forall b | b in r.pcs && InSection(r.pcs[b]) && b in r.touched ensures r.pcs[b].inst != i {
      TouchedElsewhere(s, r, t, i, b);
    }
  }

  lemma TouchedElsewhere(s: State, r: State, t: Step, i: Inst, b: Actor)
    requires TokensDistinct(s) && DisturbancesFramed(s, r, t) && ActorsFramed(s, r, t) && StaysInSection(s, r, t)
    requires Calm(s, t, i) && Untouched(s, i)
    requires b in r.pcs && InSection(r.pcs[b]) && b in r.touched
    ensures r.pcs[b].inst != i
  {
    if b !in s.touched {
      assert PcOf(r, b) == PcOf(s, b);
      if s.pcs[b].inst == i && !IsEnvironment(t) { OneCaller(s, t.a, b, i); }
    } else if !IsEnvironment(t) && b != t.a {
      assert PcOf(r, b) == PcOf(s, b);
    }
  }

  /** A caller is in the section it was in, or has just begun one. */
  predicate StaysInSection(s: State, r: State, t: Step) {
    !IsEnvironment(t) && !t.Begin? && InSection(PcOf(r, t.a)) ==>
      InSection(PcOf(s, t.a)) && PcOf(s, t.a).inst == PcOf(r, t.a).inst
  }

  lemma CalmDisturbsNoRow(s: State, r: State, t: Step, i: Inst, pk: Pk)
    requires Present(s) && ChecksHold(s) && Enabled(s, t) && DisturbancesFramed(s, r, t)
    requires IsCommit(s, t) ==> RowCommitted(s, r, t.a)
    requires RowsFramed(s, r, t) && Calm(s, t, i) && Untouched(s, i) && RowUndisturbed(s, pk, i)
    requires pk in s.disturbed ==> pk in s.rows || pk !in r.rows
    ensures RowUndisturbed(r, pk, i)
  {
    if Uncompleted(s, pk) && Meddles(s, t, i) { MeddlerSeesNoRow(s, t, i); }
  }

  lemma MeddlerSeesNoRow(s: State, t: Step, i: Inst)
    requires Present(s) && ChecksHold(s) && Enabled(s, t) && Calm(s, t, i) && Untouched(s, i) && Meddles(s, t, i)
    ensures NoOpenRow(s, i)
  {
    assert CheckHolds(s, t.a, s.pcs[t.a]);
  }

  lemma SectionsStay(s: State, t: Step)
    requires Present(s) && RowsHeld(s) && Enabled(s, t)
    ensures StaysInSection(s, Apply(s, t), t)
  {
    match t
    case Enq(a, m) => if !m.CommitRow? { EnqueueMoves(s, a, m); }
    case Sync(a, m) => SyncMoves(s, a, m);
    case Act(a, m) => ActionMoves(s, a, m);
    case Work(a, m) => WorkEnds(s, a, m);
    case Crash(a, noticed) => CrashShape(s, a, noticed);
    case _ =>
  }

  lemma WorkEnds(s: State, a: Actor, m: WorkMove)
    requires Present(s) && RowsHeld(s) && Enabled(s, Work(a, m))
    ensures !InSection(PcOf(Apply(s, Work(a, m)), a))
  {
    if PcOf(s, a).Holding? { HolderFramed(s, a, m); } else { LooseWorked(s, a, m); }
  }

  /** One calm step keeps callers untouched and rows undisturbed. */
  lemma CalmStep(s: State, t: Step, i: Inst)
    requires Inv(s) && Enabled(s, t) && Calm(s, t, i) && Untouched(s, i)
    ensures Untouched(Apply(s, t), i)
    ensures forall pk :: RowUndisturbed(s, pk, i) ==> RowUndisturbed(Apply(s, t), pk, i)
  {
    var r := Apply(s, t);
    StepFramed(s, t);
    SectionsStay(s, t);
    CalmTouchesNobody(s, r, t, i);
    if IsCommit(s, t) { CommitIsCommitted(s, t.a); }
    forall pk | RowUndisturbed(s, pk, i) ensures RowUndisturbed(r, pk, i) {
      KeysFresh(s, r, t, pk);
      CalmDisturbsNoRow(s, r, t, i, pk);
    }
  }

  lemma KeysFresh(s: State, r: State, t: Step, pk: Pk)
    requires Declared(s) && RowsFramed(s, r, t)
    ensures pk in s.disturbed ==> pk in s.rows || pk !in r.rows
  {}

  /** A calm stretch from `k` to `n`. */
  ghost predicate CalmBetween(trace: seq<State>, steps: seq<Step>, k: nat, n: nat, i: Inst)
    requires |trace| == |steps| + 1 && n < |trace|
  {
    forall j :: k <= j < n ==> Calm(trace[j], steps[j], i)
  }

  lemma {:induction false} CalmKeeps(trace: seq<State>, steps: seq<Step>, k: nat, n: nat, i: Inst, pk: Pk)
    requires Run(trace, steps) && k <= n < |trace| && CalmBetween(trace, steps, k, n, i)
    requires Untouched(trace[k], i) && RowUndisturbed(trace[k], pk, i)
    ensures Untouched(trace[n], i) && RowUndisturbed(trace[n], pk, i)
  {
    if k < n {
      CalmKeeps(trace, steps, k, n - 1, i, pk);
      CalmRunStep(trace, steps, n - 1, i, pk);
    }
  }

  lemma CalmRunStep(trace: seq<State>, steps: seq<Step>, n: nat, i: Inst, pk: Pk)
    requires Run(trace, steps) && n < |steps| && Calm(trace[n], steps[n], i)
    requires Untouched(trace[n], i) && RowUndisturbed(trace[n], pk, i)
    ensures Untouched(trace[n + 1], i) && RowUndisturbed(trace[n + 1], pk, i)
  {
    RunKeeps(trace, steps, n);
    CalmStep(trace[n], steps[n], i);
  }

  // ----- a stretch that starts with a look -----

  /** `a` looked at its instance at step `k`: a recheck, a state read or a probe that passed. */
  ghost predicate Looks(trace: seq<State>, steps: seq<Step>, k: nat, a: Actor)
    requires |trace| == |steps| + 1 && k < |steps|
  {
    || (steps[k] == Enq(a, RecheckSource) && PcOf(trace[k + 1], a).Enqueuing?)
    || (steps[k] == Sync(a, ReadState) && PcOf(trace[k + 1], a).Syncing?)
    || (steps[k] == Act(a, Probe) && PcOf(trace[k + 1], a).Acting?)
  }

  lemma RecheckUntouches(s: State, a: Actor)
    requires Present(s) && Enabled(s, Enq(a, RecheckSource))
    ensures var r := EnqueueApply(s, a, PcOf(s, a), RecheckSource);
            InSection(PcOf(r, a)) && PcOf(r, a).inst == PcOf(s, a).inst && (PcOf(r, a).Enqueuing? ==> a !in r.touched)
  {
    var pc := PcOf(s, a);
    var r := EnqueueApply(s, a, pc, RecheckSource);
    if s.db[pc.inst] in pc.decl.sources {
      assert PcOf(r, a) == pc.(phase := Rechecked, seen := s.db[pc.inst]);
    } else {
      assert PcOf(r, a) == Releasing(pc.inst, pc.tok);
    }
  }

  lemma ReadUntouches(s: State, a: Actor)
    requires Present(s) && Enabled(s, Sync(a, ReadState))
    ensures var r := SyncApply(s, a, PcOf(s, a), ReadState);
            InSection(PcOf(r, a)) && PcOf(r, a).inst == PcOf(s, a).inst && (PcOf(r, a).Syncing? ==> a !in r.touched)
  {}

  lemma ProbeUntouches(s: State, a: Actor)
    requires Present(s) && Enabled(s, Act(a, Probe))
    ensures var r := ActionApply(s, a, PcOf(s, a), Probe);
            InSection(PcOf(r, a)) && PcOf(r, a).inst == PcOf(s, a).inst && (PcOf(r, a).Acting? ==> a !in r.touched)
  {}

  lemma LookUntouches(trace: seq<State>, steps: seq<Step>, k: nat, a: Actor)
    requires Run(trace, steps) && k < |steps| && Looks(trace, steps, k, a)
    ensures InSection(PcOf(trace[k], a))
    ensures var r := trace[k + 1]; a !in r.touched && InSection(PcOf(r, a)) && PcOf(r, a).inst == PcOf(trace[k], a).inst
  {
    if steps[k] == Enq(a, RecheckSource) { RecheckUntouches(trace[k], a); }
    else if steps[k] == Sync(a, ReadState) { ReadUntouches(trace[k], a); }
    else { ProbeUntouches(trace[k], a); }
  }

  /** Right after a look, with every lock kept, the caller is alone and untouched. */
  lemma LookStartsCalm(trace: seq<State>, steps: seq<Step>, k: nat, a: Actor)
    requires Run(trace, steps) && k < |steps| && Looks(trace, steps, k, a)
    ensures InSection(PcOf(trace[k], a))
    ensures LocksKept(trace[k + 1], PcOf(trace[k], a).inst) ==> Untouched(trace[k + 1], PcOf(trace[k], a).inst)
  {
    RunKeeps(trace, steps, k + 1);
    LookUntouches(trace, steps, k, a);
    AloneUntouched(trace[k + 1], a, PcOf(trace[k], a).inst);
  }

  lemma AloneUntouched(s: State, a: Actor, i: Inst)
    requires TokensDistinct(s) && InSection(PcOf(s, a)) && PcOf(s, a).inst == i && a !in s.touched
    ensures LocksKept(s, i) ==> Untouched(s, i)
  {
    forall b | LocksKept(s, i) && b in s.pcs && InSection(s.pcs[b]) && b in s.touched ensures s.pcs[b].inst != i {
      if s.pcs[b].inst == i { OneCaller(s, a, b, i); }
    }
  }
}
