/** How a row gets into the table: the recheck, the wait and the commit of one
    enqueue, read off the run. */
module ProtocolAcceptance {
  import opened Wrappers
  import opened Messages
  import opened Protocol
  import opened ProtocolInvariant
  import opened ProtocolSteps
  import opened ProtocolRuns
  import opened ProtocolFrames
  import opened ProtocolCalm

  predicate Rechecking(pc: Pc) { pc.Enqueuing? && pc.phase.Rechecked? }

  /** `a` found a source at the recheck of step `k`, and has stood there ready to
      commit from then up to `n`. */
  ghost predicate WaitsSince(trace: seq<State>, steps: seq<Step>, k: nat, n: nat, a: Actor)
    requires |trace| == |steps| + 1 && n <= |steps|
  {
    && k < n && steps[k] == Enq(a, RecheckSource) && Found(trace[k], trace[k + 1], a)
    && forall j :: k < j <= n ==> PcOf(trace[j], a) == PcOf(trace[n], a)
  }

  /** The recheck that takes `s` to `r` found a source. */
  ghost predicate Found(s: State, r: State, a: Actor) {
    var pc := PcOf(r, a);
    Rechecking(pc) && pc.inst in s.db && s.db[pc.inst] in pc.decl.sources && a !in r.touched
  }

  lemma RecheckFinds(s: State, a: Actor)
    requires Present(s) && Enabled(s, Enq(a, RecheckSource))
    requires Rechecking(PcOf(EnqueueApply(s, a, PcOf(s, a), RecheckSource), a))
    ensures Found(s, EnqueueApply(s, a, PcOf(s, a), RecheckSource), a)
  {
    RecheckUntouches(s, a);
  }

  lemma EnqueueRechecks(s: State, a: Actor, m: EnqueueMove)
    requires Present(s) && Enabled(s, Enq(a, m)) && !m.CommitRow?
    ensures Rechecking(PcOf(Apply(s, Enq(a, m)), a)) ==> m.RecheckSource? && a !in Apply(s, Enq(a, m)).touched
  {
    if m.RecheckSource? { RecheckUntouches(s, a); }
  }

  lemma SyncRechecksNothing(s: State, a: Actor, m: SyncMove)
    requires Present(s) && Enabled(s, Sync(a, m))
    ensures !Rechecking(PcOf(Apply(s, Sync(a, m)), a))
  {}

  lemma ActionRechecksNothing(s: State, a: Actor, m: ActionMove)
    requires Present(s) && Enabled(s, Act(a, m))
    ensures !Rechecking(PcOf(Apply(s, Act(a, m)), a))
  {}

  lemma BeginRechecksNothing(s: State, a: Actor, b: Beginning)
    requires Present(s) && Enabled(s, Begin(a, b))
    ensures !Rechecking(PcOf(Apply(s, Begin(a, b)), a))
  {}

  /** Nothing but its own recheck makes an enqueue ready to commit. */
  lemma OnlyTheRecheckReadies(s: State, t: Step)
    requires Present(s) && Declared(s) && RowsHeld(s) && Enabled(s, t) && !IsEnvironment(t)
    ensures Rechecking(PcOf(Apply(s, t), t.a)) ==> t == Enq(t.a, RecheckSource) && Found(s, Apply(s, t), t.a)
  {
    match t
    case Enq(a, m) => if m.CommitRow? { CommitIsCommitted(s, a); } else { EnqueueReadies(s, a, m); }
    case Sync(a, m) => SyncRechecksNothing(s, a, m);
    case Act(a, m) => ActionRechecksNothing(s, a, m);
    case Work(a, m) => WorkEnds(s, a, m);
    case Crash(a, noticed) => CrashShape(s, a, noticed);
    case Begin(a, b) => BeginRechecksNothing(s, a, b);
    case _ =>
  }

  lemma EnqueueReadies(s: State, a: Actor, m: EnqueueMove)
    requires Present(s) && Enabled(s, Enq(a, m)) && !m.CommitRow?
    ensures var r := EnqueueApply(s, a, PcOf(s, a), m);
            Rechecking(PcOf(r, a)) ==> m.RecheckSource? && Found(s, r, a)
  {
    EnqueueRechecks(s, a, m);
    if m.RecheckSource? && Rechecking(PcOf(EnqueueApply(s, a, PcOf(s, a), m), a)) { RecheckFinds(s, a); }
  }

  lemma ReadyBefore(trace: seq<State>, steps: seq<Step>, n: nat, a: Actor)
    requires Run(trace, steps) && n < |steps| && Rechecking(PcOf(trace[n + 1], a))
    ensures (steps[n] == Enq(a, RecheckSource) && Found(trace[n], trace[n + 1], a)) || PcOf(trace[n], a) == PcOf(trace[n + 1], a)
  {
    StepOfRun(trace, steps, n);
    if !IsEnvironment(steps[n]) && steps[n].a == a { OnlyTheRecheckReadies(trace[n], steps[n]); }
  }

  lemma {:induction false} FindRecheck(trace: seq<State>, steps: seq<Step>, n: nat, a: Actor) returns (k: nat)
    requires Run(trace, steps) && n < |trace| && Rechecking(PcOf(trace[n], a))
    ensures WaitsSince(trace, steps, k, n, a)
  {
    if n > 0 {
      ReadyBefore(trace, steps, n - 1, a);
      if steps[n - 1] == Enq(a, RecheckSource) && Found(trace[n - 1], trace[n], a) {
        k := n - 1;
      } else {
        k := FindRecheck(trace, steps, n - 1, a);
      }
    }
  }

  // ----- while it waits -----

  /** A waiting enqueue owns the slot of its instance, so nobody can queue there;
      only a write from outside the queue touches it. */
  lemma WaitsUntouched(s: State, r: State, t: Step, a: Actor)
    requires SlotsOwned(s) && DisturbancesFramed(s, r, t)
    requires Rechecking(PcOf(s, a)) && a !in s.touched && !Meddles(s, t, PcOf(s, a).inst)
    ensures a !in r.touched
  {
    if IsCommit(s, t) { assert HasSlot(PcOf(s, t.a)) && HasSlot(PcOf(s, a)); }
  }

  ghost predicate NeverNewlyTouched(trace: seq<State>, k: nat, n: nat, a: Actor) {
    forall j :: k < j < n && j + 1 < |trace| && a !in trace[j].touched ==> a !in trace[j + 1].touched
  }

  lemma {:induction false} UntouchedThroughout(trace: seq<State>, k: nat, m: nat, n: nat, a: Actor)
    requires k < m <= n < |trace| && NeverNewlyTouched(trace, k, n, a) && a !in trace[k + 1].touched
    ensures a !in trace[m].touched
  {
    if m > k + 1 { UntouchedThroughout(trace, k, m - 1, n, a); }
  }

  lemma UntouchedSince(trace: seq<State>, steps: seq<Step>, k: nat, n: nat, a: Actor)
    requires Run(trace, steps) && n <= |steps| && WaitsSince(trace, steps, k, n, a) && Rechecking(PcOf(trace[n], a))
    requires forall j :: k < j < n ==> !Meddles(trace[j], steps[j], PcOf(trace[n], a).inst)
    ensures a !in trace[n].touched
  {
    forall j | k < j < n && a !in trace[j].touched ensures a !in trace[j + 1].touched {
      UntouchedRunStep(trace, steps, j, a);
    }
    UntouchedThroughout(trace, k, n, n, a);
  }

  lemma UntouchedRunStep(trace: seq<State>, steps: seq<Step>, n: nat, a: Actor)
    requires Run(trace, steps) && n < |steps| && Rechecking(PcOf(trace[n], a)) && a !in trace[n].touched
    requires !Meddles(trace[n], steps[n], PcOf(trace[n], a).inst)
    ensures a !in trace[n + 1].touched
  {
    StepOfRun(trace, steps, n);
    WaitsUntouched(trace[n], trace[n + 1], steps[n], a);
  }

  lemma NoRowWhileWaiting(trace: seq<State>, steps: seq<Step>, n: nat, a: Actor)
    requires Run(trace, steps) && n < |trace| && Rechecking(PcOf(trace[n], a))
    ensures NoOpenRow(trace[n], PcOf(trace[n], a).inst)
  {
    RunKeeps(trace, steps, n);
    assert HasSlot(PcOf(trace[n], a));
  }

  lemma CommitAccepts(s: State, r: State, a: Actor)
    requires Inv(s) && RowCommitted(s, r, a)
    ensures var row := r.rows[Pk(s.nextPk)];
            && row.inst == PcOf(s, a).inst && NoOpenRow(s, row.inst)
            && PcOf(s, a).seen in row.decl.sources
            && (a !in s.touched ==> s.db[row.inst] in row.decl.sources && AtRest(row.decl, r.db[row.inst]))
            && row.message == NewMessage(row.decl.timeout, s.now)
  {
    assert CheckHolds(s, a, PcOf(s, a));
    assert HasSlot(PcOf(s, a));
  }

  /** A row enters the table only by an enqueue's commit. Some step `k` before it
      is that enqueue's recheck, which found the persisted state in a source; at
      every moment from then to the commit the instance has no uncompleted row;
      and unless someone outside the queue wrote the instance in between, the
      persisted state is a source at the commit too, and the commit leaves the
      instance at rest for its worker. */
  lemma AcceptanceIsSerialized(trace: seq<State>, steps: seq<Step>, n: nat, pk: Pk) returns (k: nat)
    requires Run(trace, steps) && n < |steps|
    requires pk !in trace[n].rows && pk in trace[n + 1].rows
    ensures var s, r, row := trace[n], trace[n + 1], trace[n + 1].rows[pk];
            && IsCommit(s, steps[n])
            && k < n && steps[k] == Enq(steps[n].a, RecheckSource)
            && row.inst in trace[k].db && trace[k].db[row.inst] in row.decl.sources
            && (forall j :: k < j <= n ==> NoOpenRow(trace[j], row.inst))
            && ((forall j :: k < j < n ==> !Meddles(trace[j], steps[j], row.inst)) ==>
                  && row.inst in s.db && s.db[row.inst] in row.decl.sources
                  && row.inst in r.db && AtRest(row.decl, r.db[row.inst]))
            && row.message == NewMessage(row.decl.timeout, s.now)
            && forall q :: q in s.rows ==> q in r.rows && r.rows[q] == s.rows[q]
  {
    StepOfRun(trace, steps, n);
    var a := steps[n].a;
    var pc := PcOf(trace[n], a);
    assert IsCommit(trace[n], steps[n]) && pk == Pk(trace[n].nextPk);
    CommitStepAccepts(trace[n], trace[n + 1], a);
    k := FindRecheck(trace, steps, n, a);
    forall j | k < j <= n ensures NoOpenRow(trace[j], pc.inst) { NoRowWhileWaiting(trace, steps, j, a); }
    if forall j :: k < j < n ==> !Meddles(trace[j], steps[j], pc.inst) { UntouchedSince(trace, steps, k, n, a); }
  }

  lemma CommitStepAccepts(s: State, r: State, a: Actor)
    requires Inv(s) && EnqueueEnabled(s, PcOf(s, a), CommitRow) && r == Apply(s, Enq(a, CommitRow))
    ensures var pc, pk := PcOf(s, a), Pk(s.nextPk);
            && pk in r.rows && r.rows[pk].inst == pc.inst && r.rows[pk].decl == pc.decl
            && pc.inst in s.db && pc.inst in r.db
            && (a !in s.touched ==> s.db[pc.inst] in pc.decl.sources && AtRest(pc.decl, r.db[pc.inst]))
            && r.rows[pk].message == NewMessage(pc.decl.timeout, s.now)
            && forall q :: q in s.rows ==> q in r.rows && r.rows[q] == s.rows[q]
  {
    CommitIsCommitted(s, a);
    CommitAccepts(s, r, a);
  }
}
