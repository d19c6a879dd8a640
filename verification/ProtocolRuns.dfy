/** Every step of the machine keeps the invariant, so every run does; and what
    that says about rows, states, gates and locks. */
module ProtocolRuns {
  import opened Messages
  import opened Protocol
  import opened ProtocolInvariant
  import opened ProtocolSteps

  // ----- enqueue -----

  /** A move within a critical section: same lock, same slots, same rows;
      perhaps after a look at the instance. */
  lemma SectionMoveKeeps(s: State, a: Actor, r: State)
    requires Inv(s) && InSection(PcOf(s, a)) && (r == At(s, a, PcOf(r, a)) || r == At(Looked(s, a), a, PcOf(r, a)))
    requires var pc := PcOf(r, a);
             && a in r.pcs && InSection(pc) && pc.inst == PcOf(s, a).inst && pc.tok == PcOf(s, a).tok
             && (HasSlot(pc) <==> HasSlot(PcOf(s, a)))
             && (pc.Enqueuing? ==> ValidDecl(pc.decl))
             && CheckHolds(r, a, pc)
    ensures Inv(r)
  {
    MovedRows(s, r, a);
    MovedChecks(s, r, a);
    MovedLocks(s, r, a);
    MovedHolds(s, r, a);
    SectionSlots(s, r, a);
  }

  lemma SectionSlots(s: State, r: State, a: Actor)
    requires SlotsOwned(s) && InSection(PcOf(s, a)) && ActorMoved(s, r, a) && r.slot == s.slot
    requires InSection(r.pcs[a]) && r.pcs[a].inst == PcOf(s, a).inst && (HasSlot(r.pcs[a]) <==> HasSlot(PcOf(s, a)))
    ensures SlotsOwned(r)
  {
    assert forall b :: b in r.pcs && b != a ==> b in s.pcs && r.pcs[b] == s.pcs[b];
  }

  lemma InsertKeeps(s: State, a: Actor)
    requires Inv(s) && EnqueueEnabled(s, PcOf(s, a), Insert) && NoOpenRow(s, PcOf(s, a).inst)
    ensures Inv(EnqueueApply(s, a, PcOf(s, a), Insert))
  {
    var r := EnqueueApply(s, a, PcOf(s, a), Insert);
    MovedRows(s, r, a);
    MovedChecks(s, r, a);
    MovedLocks(s, r, a);
    MovedHolds(s, r, a);
    InsertSlots(s, a);
  }

  lemma InsertSlots(s: State, a: Actor)
    requires SlotsOwned(s) && EnqueueEnabled(s, PcOf(s, a), Insert) && PcOf(s, a).inst in s.db && NoOpenRow(s, PcOf(s, a).inst)
    ensures SlotsOwned(EnqueueApply(s, a, PcOf(s, a), Insert))
  {
    var r := EnqueueApply(s, a, PcOf(s, a), Insert);
    assert forall b :: b in r.pcs && b != a ==> b in s.pcs && r.pcs[b] == s.pcs[b];
  }

  lemma EnqueueKeeps(s: State, a: Actor, m: EnqueueMove)
    requires Inv(s) && EnqueueEnabled(s, PcOf(s, a), m)
    ensures Inv(EnqueueApply(s, a, PcOf(s, a), m))
  {
    match m
    case CheckSource => SourceCheckKeeps(s, a, m);
    case Insert =>
      if NoOpenRow(s, PcOf(s, a).inst) { InsertKeeps(s, a); } else { ToReleasingKeeps(s, a, EnqueueApply(s, a, PcOf(s, a), m)); }
    case RecheckSource => SourceCheckKeeps(s, a, m);
    case CommitRow => CommitKeeps(s, a);
    case FailEnqueue => ToReleasingKeeps(s, a, EnqueueApply(s, a, PcOf(s, a), m));
  }

  lemma SourceCheckKeeps(s: State, a: Actor, m: EnqueueMove)
    requires Inv(s) && EnqueueEnabled(s, PcOf(s, a), m) && (m.CheckSource? || m.RecheckSource?)
    ensures Inv(EnqueueApply(s, a, PcOf(s, a), m))
  {
    var r := EnqueueApply(s, a, PcOf(s, a), m);
    if s.db[PcOf(s, a).inst] in PcOf(s, a).decl.sources {
      SourceCheckPasses(s, a, m);
      SectionMoveKeeps(s, a, r);
    } else {
      ToReleasingKeeps(s, a, r);
    }
  }

  lemma SourceCheckPasses(s: State, a: Actor, m: EnqueueMove)
    requires Present(s) && EnqueueEnabled(s, PcOf(s, a), m) && (m.CheckSource? || m.RecheckSource?)
    requires s.db[PcOf(s, a).inst] in PcOf(s, a).decl.sources
    ensures var o, r := PcOf(s, a), EnqueueApply(s, a, PcOf(s, a), m);
            var pc := PcOf(r, a);
            && (r == At(s, a, pc) || r == At(Looked(s, a), a, pc)) && a in r.pcs && pc.Enqueuing?
            && pc.inst == o.inst && pc.tok == o.tok && pc.decl == o.decl && (HasSlot(pc) <==> HasSlot(o))
            && CheckHolds(r, a, pc)
  {}

  // ----- the row commits -----

  /** What `r` is when actor `a` commits its row in `s`. */
  ghost predicate RowCommitted(s: State, r: State, a: Actor) {
    && EnqueueEnabled(s, PcOf(s, a), CommitRow) && PcOf(s, a).inst in s.db
    && var pc, pk := PcOf(s, a), Pk(s.nextPk);
       var m := NewMessage(pc.decl.timeout, s.now);
       && pk !in s.rows && r.rows == s.rows[pk := Row(pc.inst, pc.decl, m)]
       && r.births == s.births[pk := Birth(pc.seen, s.db[pc.inst], a in s.touched, m)]
       && r.events == s.events[pk := []]
       && r.db.Keys == s.db.Keys && (forall i :: i in s.db && i != pc.inst ==> r.db[i] == s.db[i])
       && r.db[pc.inst] == (if pc.decl.inProgress.Some? then pc.decl.inProgress.value else s.db[pc.inst])
       && (forall i :: i in r.slot <==> i in s.slot && i != pc.inst)
       && (forall i :: i in r.slot ==> r.slot[i] == s.slot[i])
       && r.pcs == s.pcs[a := Releasing(pc.inst, pc.tok)]
       && (forall b :: b in r.touched <==> b in s.touched || (b in CallersOn(s, pc.inst) && b != a))
       && (forall q :: q in r.disturbed <==> q in s.disturbed || (a in s.touched && q == pk))
       && r == s.(rows := r.rows, births := r.births, events := r.events, db := r.db, slot := r.slot,
                  pcs := r.pcs, touched := r.touched, disturbed := r.disturbed, nextPk := s.nextPk + 1)
  }

  lemma CommitIsCommitted(s: State, a: Actor)
    requires Present(s) && Declared(s) && EnqueueEnabled(s, PcOf(s, a), CommitRow)
    ensures RowCommitted(s, EnqueueApply(s, a, PcOf(s, a), CommitRow), a)
  {
    var pc := PcOf(s, a);
    var c := Committed(s, a, pc);
    CommittedShape(s, a, pc);
    assert EnqueueApply(s, a, pc, CommitRow) == c.(pcs := c.pcs[a := Releasing(pc.inst, pc.tok)]);
    assert Pk(s.nextPk) !in s.rows;
  }

  lemma CommittedShape(s: State, a: Actor, pc: Pc)
    requires pc.Enqueuing? && pc.inst in s.db
    ensures var pk, m := Pk(s.nextPk), NewMessage(pc.decl.timeout, s.now);
            var c := Committed(s, a, pc);
            && c == s.(rows := s.rows[pk := Row(pc.inst, pc.decl, m)],
                       births := s.births[pk := Birth(pc.seen, s.db[pc.inst], a in s.touched, m)],
                       events := s.events[pk := []], nextPk := s.nextPk + 1,
                       touched := s.touched + (CallersOn(s, pc.inst) - {a}),
                       disturbed := if a in s.touched then s.disturbed + {pk} else s.disturbed,
                       db := c.db, slot := s.slot - {pc.inst})
            && c.db == if pc.decl.inProgress.Some? then s.db[pc.inst := pc.decl.inProgress.value] else s.db
  {}

  lemma CommitPresent(s: State, r: State, a: Actor)
    requires Present(s) && Declared(s) && RowCommitted(s, r, a)
    ensures Present(r) && Declared(r)
  {
    CommitRowsPresent(s, r, a);
    assert forall b :: b in r.pcs && b != a ==> b in s.pcs && r.pcs[b] == s.pcs[b];
  }

  lemma CommitRowsPresent(s: State, r: State, a: Actor)
    requires Present(s) && Declared(s) && RowCommitted(s, r, a)
    ensures forall q :: q in r.rows ==> r.rows[q].inst in r.db && q in r.events && q in r.births && ValidDecl(r.rows[q].decl)
  {
    forall q | q in r.rows ensures r.rows[q].inst in r.db && q in r.events && q in r.births && ValidDecl(r.rows[q].decl) {
      if q != Pk(s.nextPk) { assert q in s.rows && r.rows[q] == s.rows[q]; }
    }
  }

  lemma CommitTokens(s: State, r: State, a: Actor)
    requires TokensDistinct(s) && RowCommitted(s, r, a)
    ensures TokensDistinct(r)
  {
    assert forall b :: b in r.pcs && b != a ==> b in s.pcs && r.pcs[b] == s.pcs[b];
  }

  /** Uniqueness: the slot kept every other uncompleted row away. */
  lemma CommitRows(s: State, r: State, a: Actor)
    requires SlotsOwned(s) && OneOpenRow(s) && NeverSuperseded(s) && RowCommitted(s, r, a)
    ensures OneOpenRow(r) && NeverSuperseded(r)
  {
    assert NoOpenRow(s, PcOf(s, a).inst);
    forall p, q | Uncompleted(r, p) && Uncompleted(r, q) && r.rows[p].inst == r.rows[q].inst ensures p == q {
      if p != Pk(s.nextPk) { assert Uncompleted(s, p); }
      if q != Pk(s.nextPk) { assert Uncompleted(s, q); }
    }
  }

  lemma CommitPlaces(s: State, r: State, a: Actor)
    requires Present(s) && Declared(s) && SlotsOwned(s) && ChecksHold(s) && InPlace(s)
    requires RowCommitted(s, r, a) && Present(r)
    ensures InPlace(r)
  {
    var pc := PcOf(s, a);
    assert NoOpenRow(s, pc.inst);
    assert CheckHolds(s, a, pc);
    forall pk | Uncompleted(r, pk) && pk !in r.disturbed
      ensures AtRest(r.rows[pk].decl, r.db[r.rows[pk].inst])
    {
      if pk != Pk(s.nextPk) { assert Uncompleted(s, pk); }
    }
  }

  lemma CommitBirths(s: State, r: State, a: Actor)
    requires Present(s) && ChecksHold(s) && BornInSource(s) && RowCommitted(s, r, a) && Present(r)
    ensures BornInSource(r)
  {
    assert CheckHolds(s, a, PcOf(s, a));
    forall q | q in r.rows
      ensures r.births[q].seen in r.rows[q].decl.sources
      ensures !r.births[q].touched ==> r.births[q].atCommit in r.rows[q].decl.sources
    {
      if q != Pk(s.nextPk) { assert q in s.rows && r.rows[q] == s.rows[q] && r.births[q] == s.births[q]; }
    }
  }

  lemma CommitHistory(s: State, r: State, a: Actor)
    requires Present(s) && Historical(s) && RowCommitted(s, r, a) && Present(r)
    ensures Historical(r)
  {
    forall q | q in r.rows ensures RowHistorical(r, q) {
      if q != Pk(s.nextPk) {
        assert RowHistorical(s, q) && r.rows[q] == s.rows[q] && r.events[q] == s.events[q] && r.births[q] == s.births[q];
      }
    }
  }

  /** Whoever else stood on the instance knows that a row came. */
  lemma CommitChecks(s: State, r: State, a: Actor)
    requires Present(s) && SlotsOwned(s) && ChecksHold(s) && RowCommitted(s, r, a) && Present(r)
    ensures ChecksHold(r)
  {
    forall b | b in r.pcs ensures CheckHolds(r, b, r.pcs[b]) {
      if b != a { CommitCheck(s, r, a, b); }
    }
  }

  lemma CommitCheck(s: State, r: State, a: Actor, b: Actor)
    requires Present(s) && SlotsOwned(s) && ChecksHold(s) && RowCommitted(s, r, a) && Present(r)
    requires b in s.pcs && b != a && r.pcs[b] == s.pcs[b]
    ensures CheckHolds(r, b, s.pcs[b])
  {
    assert CheckHolds(s, b, s.pcs[b]);
    if InSection(s.pcs[b]) {
      if s.pcs[b].inst == PcOf(s, a).inst {
        assert b in CallersOn(s, s.pcs[b].inst) && b in r.touched;
      } else {
        CommitElsewhere(s, r, a, s.pcs[b].inst);
      }
    }
  }

  lemma CommitElsewhere(s: State, r: State, a: Actor, i: Inst)
    requires RowCommitted(s, r, a) && i in s.db && i != PcOf(s, a).inst
    ensures i in r.db && r.db[i] == s.db[i] && (NoOpenRow(s, i) ==> NoOpenRow(r, i))
    ensures forall outcomes :: Foreseen(s, i, outcomes) ==> Foreseen(r, i, outcomes)
  {
    assert forall pk :: OpenOn(r, pk, i) ==> OpenOn(s, pk, i) && r.rows[pk] == s.rows[pk];
  }

  lemma CommitSlots(s: State, r: State, a: Actor)
    requires SlotsOwned(s) && RowCommitted(s, r, a)
    ensures SlotsOwned(r)
  {
    forall b | b in r.pcs && HasSlot(r.pcs[b]) ensures r.pcs[b].inst in r.slot && r.slot[r.pcs[b].inst] == b {
      assert b in s.pcs && HasSlot(s.pcs[b]) && s.slot[s.pcs[b].inst] == b;
    }
    forall i | i in r.slot
      ensures r.slot[i] in r.pcs && HasSlot(r.pcs[r.slot[i]]) && r.pcs[r.slot[i]].inst == i && NoOpenRow(r, i)
    {
      assert NoOpenRow(s, i) && s.slot[i] != a;
    }
  }

  lemma CommitHolds(s: State, r: State, a: Actor)
    requires RowsHeld(s) && RowCommitted(s, r, a)
    ensures RowsHeld(r)
  {
    forall b | b in r.pcs && r.pcs[b].Holding? ensures HoldsRow(r, b, r.pcs[b].role, r.pcs[b].pk) {
      assert HoldsRow(s, b, s.pcs[b].role, s.pcs[b].pk);
    }
  }

  lemma CommitKeeps(s: State, a: Actor)
    requires Inv(s) && EnqueueEnabled(s, PcOf(s, a), CommitRow)
    ensures Inv(EnqueueApply(s, a, PcOf(s, a), CommitRow))
  {
    var r := EnqueueApply(s, a, PcOf(s, a), CommitRow);
    CommitIsCommitted(s, a);
    CommitPresent(s, r, a);
    CommitTokens(s, r, a);
    CommitRows(s, r, a);
    CommitPlaces(s, r, a);
    CommitBirths(s, r, a);
    CommitHistory(s, r, a);
    CommitChecks(s, r, a);
    CommitSlots(s, r, a);
    CommitHolds(s, r, a);
  }

  // ----- the synchronous path -----

  lemma SyncKeeps(s: State, a: Actor, m: SyncMove)
    requires Inv(s) && SyncEnabled(s, PcOf(s, a), m)
    ensures Inv(SyncApply(s, a, PcOf(s, a), m))
  {
    match m
    case ReadState => ReadStateKeeps(s, a);
    case ReadRow => ReadRowKeeps(s, a);
    case WriteState(v) => LeavingWriteKeeps(s, a, v);
    case FailSync => ToReleasingKeeps(s, a, SyncApply(s, a, PcOf(s, a), m));
  }

  lemma ReadStateKeeps(s: State, a: Actor)
    requires Inv(s) && SyncEnabled(s, PcOf(s, a), ReadState)
    ensures Inv(SyncApply(s, a, PcOf(s, a), ReadState))
  {
    var pc := PcOf(s, a);
    var r := SyncApply(s, a, pc, ReadState);
    assert CheckHolds(s, a, pc);
    if s.db[pc.inst] in pc.decl.sources {
      OutcomesForesee(s, r, pc.inst);
      SectionMoveKeeps(s, a, r);
    } else {
      ToReleasingKeeps(s, a, r);
    }
  }

  lemma OutcomesForesee(s: State, r: State, i: Inst)
    requires r.rows == s.rows
    ensures Foreseen(r, i, Outcomes(s, i))
  {
    assert forall pk :: OpenOn(r, pk, i) ==> OpenOn(s, pk, i);
  }

  lemma ReadRowKeeps(s: State, a: Actor)
    requires Inv(s) && SyncEnabled(s, PcOf(s, a), ReadRow)
    ensures Inv(SyncApply(s, a, PcOf(s, a), ReadRow))
  {
    var pc := PcOf(s, a);
    var r := SyncApply(s, a, pc, ReadRow);
    assert CheckHolds(s, a, pc);
    if NoOpenRow(s, pc.inst) {
      SameRows(s, r, pc.inst);
      SectionMoveKeeps(s, a, r);
    } else {
      ToReleasingKeeps(s, a, r);
    }
  }

  lemma ActionKeeps(s: State, a: Actor, m: ActionMove)
    requires Inv(s) && ActionEnabled(s, PcOf(s, a), m)
    ensures Inv(ActionApply(s, a, PcOf(s, a), m))
  {
    match m
    case Probe => ProbeKeeps(s, a);
    case WriteFailed => LeavingWriteKeeps(s, a, PcOf(s, a).failed);
    case SkipWrite => ToReleasingKeeps(s, a, ActionApply(s, a, PcOf(s, a), m));
  }

  lemma ProbeKeeps(s: State, a: Actor)
    requires Inv(s) && ActionEnabled(s, PcOf(s, a), Probe)
    ensures Inv(ActionApply(s, a, PcOf(s, a), Probe))
  {
    var pc := PcOf(s, a);
    var r := ActionApply(s, a, pc, Probe);
    if NoOpenRow(s, pc.inst) {
      SameRows(s, r, pc.inst);
      SectionMoveKeeps(s, a, r);
    } else {
      ToReleasingKeeps(s, a, r);
    }
  }

  /** The last write of a section, whether or not its lock still holds. */
  lemma LeavingWriteKeeps(s: State, a: Actor, v: string)
    requires Inv(s) && (PcOf(s, a).Syncing? || PcOf(s, a).Acting?)
    ensures var pc := PcOf(s, a);
            pc.inst in s.db && Inv(At(Moved(s, pc.inst, v, {a}), a, Releasing(pc.inst, pc.tok)))
  {
    // the same state is reached by leaving first
    var pc := PcOf(s, a);
    var t := At(s, a, Releasing(pc.inst, pc.tok));
    ToReleasingKeeps(s, a, t);
    MovedKeeps(t, pc.inst, v, {a});
    LeavingCommutes(s, a, pc.inst, v, Releasing(pc.inst, pc.tok));
  }

  lemma LeavingCommutes(s: State, a: Actor, i: Inst, v: string, pc: Pc)
    ensures At(Moved(s, i, v, {a}), a, pc) == Moved(At(s, a, pc), i, v, {a})
  {
    var t := At(s, a, pc);
    SameCallers(s, t, a, i);
    SameRows(s, t, i);
    assert OpenRows(s, i) == OpenRows(t, i);
  }

  lemma SameCallers(s: State, t: State, a: Actor, i: Inst)
    requires a in t.pcs && t.pcs == s.pcs[a := t.pcs[a]]
    ensures CallersOn(t, i) - {a} == CallersOn(s, i) - {a}
  {
    assert forall b :: b in t.pcs && b != a ==> b in s.pcs && t.pcs[b] == s.pcs[b];
  }

  // ----- beginnings, workers, safety nets -----

  lemma BeginKeeps(s: State, a: Actor, b: Beginning)
    requires Inv(s) && PcOf(s, a).Idle? && BeginEnabled(s, b)
    ensures Inv(BeginApply(s, a, b))
  {
    match b
    case Enqueue(i, decl) => LockTakenKeeps(s, a, i, Enqueuing(Locked, i, decl, s.nextTok, ""));
    case Transition(i, decl) => LockTakenKeeps(s, a, i, Syncing(false, false, i, decl, s.nextTok, {}));
    case FailedAction(i, v) => LockTakenKeeps(s, a, i, Acting(false, i, v, s.nextTok));
    case StampAttempt(pk) => StampKeeps(s, a, pk);
    case LateDeath(pk) => IdleMoveKeeps(s, a, Dead(pk));
    case WatchdogCharge(pk) => UnsupersededWriteKeeps(s, pk, Charge(false));
    case WatchdogTake(pk) => TakenKeeps(s, a, pk, WatchdogFinal);
    case StuckTake(pk) => TakenKeeps(s, a, pk, StuckFinal);
  }

  lemma UnsupersededWriteKeeps(s: State, pk: Pk, op: Op)
    requires Inv(s) && Free(s, pk) && Allowed(s.rows[pk].message, op, s.cfg, s.now)
    requires op == Stamp || op == Death || op == GiveUp || op == Charge(false)
    ensures pk in s.events && Inv(Wrote(s, pk, op))
  {
    FreeWriteKeeps(s, pk, op);
  }

  lemma StampKeeps(s: State, a: Actor, pk: Pk)
    requires Inv(s) && PcOf(s, a).Idle? && Free(s, pk)
    ensures pk in s.events && Inv(At(Wrote(s, pk, Stamp), a, Stamped(pk)))
  {
    LooseWriteKeeps(s, a, pk, Stamp, Stamped(pk));
  }

  lemma LooseWorkKeeps(s: State, a: Actor, m: WorkMove)
    requires Inv(s) && WorkEnabled(s, PcOf(s, a), m) && !PcOf(s, a).Holding?
    ensures Inv(WorkApply(s, a, PcOf(s, a), m))
  {
    var pk := PcOf(s, a).pk;
    if m.Take? {
      if Free(s, pk) { TakenKeeps(s, a, pk, Attempt); } else { IdleMoveKeeps(s, a, Idle); }
    } else if Uncompleted(s, pk) {
      LooseWriteKeeps(s, a, pk, if m.RecordDeath? then Death else GiveUp, Idle);
    } else {
      IdleMoveKeeps(s, a, Idle);
    }
  }

  /** A write of a row nobody holds, by an actor that holds nothing. */
  lemma LooseWriteKeeps(s: State, a: Actor, pk: Pk, op: Op, pc: Pc)
    requires Inv(s) && Free(s, pk) && (op == Stamp || op == Death || op == GiveUp)
    requires !InSection(PcOf(s, a)) && !PcOf(s, a).Holding? && !InSection(pc) && !pc.Holding?
    ensures pk in s.events && Inv(At(Wrote(s, pk, op), a, pc))
  {
    UnsupersededWriteKeeps(s, pk, op);
    IdleMoveKeeps(Wrote(s, pk, op), a, pc);
  }

  lemma HolderKeeps(s: State, a: Actor, m: WorkMove)
    requires Inv(s) && WorkEnabled(s, PcOf(s, a), m) && PcOf(s, a).Holding?
    ensures Inv(HolderApply(s, a, PcOf(s, a), m))
  {
    match m
    case RestoreGone => ReleaseRowKeeps(s, a, GivingUp(PcOf(s, a).pk));
    case RestoreBroken => RestoreBrokenKeeps(s, a);
    case GuardState => GuardKeeps(s, a);
    case Succeed => SucceedKeeps(s, a);
    case FailAttempt(permanent, accepted) => FailKeeps(s, a, permanent, accepted);
    case Finish(accepted) => FinishKeeps(s, a, accepted);
    case _ =>
  }

  lemma RestoreBrokenKeeps(s: State, a: Actor)
    requires Inv(s) && WorkEnabled(s, PcOf(s, a), RestoreBroken)
    ensures Inv(HolderApply(s, a, PcOf(s, a), RestoreBroken))
  {
    var pc := PcOf(s, a);
    assert HoldsRow(s, a, pc.role, pc.pk);
    if pc.role.Attempt? {
      SettledKeeps(s, a, RestoreFail);
    } else {
      FinalOpCompletes(s, pc);
      SettledKeeps(s, a, FinalOp(pc.role, false));
    }
  }

  lemma SucceedKeeps(s: State, a: Actor)
    requires Inv(s) && WorkEnabled(s, PcOf(s, a), WorkMove.Succeed)
    ensures Inv(HolderApply(s, a, PcOf(s, a), WorkMove.Succeed))
  {
    var pc := PcOf(s, a);
    assert HoldsRow(s, a, pc.role, pc.pk);
    OwnerMovesState(s, a, Op.Succeed, s.rows[pc.pk].decl.target);
  }

  lemma FinalOpCompletes(s: State, pc: Pc)
    requires pc.Holding? && !pc.role.Attempt? && pc.pk in s.rows && NeverSuperseded(s)
    requires pc.role.WatchdogFinal? ==>
               s.rows[pc.pk].message.Chargeable(s.now) && s.rows[pc.pk].message.errorsCount + 1 >= s.cfg.maxErrors
    requires pc.role.StuckFinal? ==> s.rows[pc.pk].message.errorsCount >= s.cfg.maxErrors
    requires !s.rows[pc.pk].message.isCompleted
    ensures var m, op := s.rows[pc.pk].message, FinalOp(pc.role, false);
            var w := Messages.Write(m, op, s.cfg, s.now);
            Allowed(m, op, s.cfg, s.now) && w.isCompleted && (w.note == SupersededNote ==> pc.pk in s.disturbed)
  {}

  lemma FinishKeeps(s: State, a: Actor, accepted: bool)
    requires Inv(s) && WorkEnabled(s, PcOf(s, a), Finish(accepted))
    ensures Inv(HolderApply(s, a, PcOf(s, a), Finish(accepted)))
  {
    var pc := PcOf(s, a);
    assert HoldsRow(s, a, pc.role, pc.pk);
    FinalOpCompletes(s, pc);
    if accepted {
      OwnerMovesState(s, a, FinalOp(pc.role, false), s.rows[pc.pk].decl.failedState);
    } else {
      SettledKeeps(s, a, FinalOp(pc.role, false));
    }
  }

  lemma GuardKeeps(s: State, a: Actor)
    requires Inv(s) && WorkEnabled(s, PcOf(s, a), GuardState)
    ensures Inv(HolderApply(s, a, PcOf(s, a), GuardState))
  {
    var pc := PcOf(s, a);
    assert HoldsRow(s, a, pc.role, pc.pk);
    if AtRest(s.rows[pc.pk].decl, s.db[s.rows[pc.pk].inst]) {
      GuardedKeeps(s, a);
    } else {
      SettledKeeps(s, a, FinalOp(pc.role, true));
    }
  }

  lemma GuardedKeeps(s: State, a: Actor)
    requires Inv(s) && PcOf(s, a).Holding?
    ensures Inv(At(s, a, PcOf(s, a).(guarded := true)))
  {
    var r := At(s, a, PcOf(s, a).(guarded := true));
    MovedRows(s, r, a);
    MovedChecks(s, r, a);
    MovedLocks(s, r, a);
    MovedSlots(s, r, a);
    GuardedHolds(s, a);
  }

  lemma GuardedHolds(s: State, a: Actor)
    requires RowsHeld(s) && PcOf(s, a).Holding?
    ensures RowsHeld(At(s, a, PcOf(s, a).(guarded := true)))
  {
    var r := At(s, a, PcOf(s, a).(guarded := true));
    forall b | b in r.pcs && r.pcs[b].Holding? ensures HoldsRow(r, b, r.pcs[b].role, r.pcs[b].pk) {
      assert HoldsRow(s, b, s.pcs[b].role, s.pcs[b].pk);
    }
  }

  lemma FailKeeps(s: State, a: Actor, permanent: bool, accepted: bool)
    requires Inv(s) && WorkEnabled(s, PcOf(s, a), FailAttempt(permanent, accepted))
    ensures Inv(HolderApply(s, a, PcOf(s, a), FailAttempt(permanent, accepted)))
  {
    var pk := PcOf(s, a).pk;
    assert HoldsRow(s, a, PcOf(s, a).role, pk);
    SettledKeeps(s, a, Fail(permanent));
    SettledShape(s, a, pk, Fail(permanent));
    if Messages.Write(s.rows[pk].message, Fail(permanent), s.cfg, s.now).isCompleted {
      OwnerMovesState(s, a, Fail(permanent), s.rows[pk].decl.failedState);
    }
  }

  // ----- the environment -----

  lemma SweepKeeps(s: State, gone: set<Pk>)
    requires Inv(s) && Enabled(s, Sweep(gone))
    ensures Inv(s.(rows := s.rows - gone))
  {
    var r := s.(rows := s.rows - gone);
    assert forall pk :: pk in r.rows ==> pk in s.rows && r.rows[pk] == s.rows[pk];
    assert forall pk :: Uncompleted(s, pk) <==> Uncompleted(r, pk);
    SweepActors(s, r);
    SweepRows(s, r);
  }

  ghost predicate Swept(s: State, r: State) {
    && r == s.(rows := r.rows)
    && (forall pk :: pk in r.rows ==> pk in s.rows && r.rows[pk] == s.rows[pk])
    && (forall pk :: Uncompleted(s, pk) <==> Uncompleted(r, pk))
  }

  lemma SweepActors(s: State, r: State)
    requires Present(s) && Declared(s) && TokensDistinct(s) && SlotsOwned(s) && RowsHeld(s) && ChecksHold(s) && Swept(s, r)
    ensures Present(r) && Declared(r) && TokensDistinct(r) && SlotsOwned(r) && RowsHeld(r) && ChecksHold(r)
  {
    SweepHolds(s, r);
    forall i | NoOpenRow(s, i) ensures NoOpenRow(r, i) {}
    forall a | a in r.pcs ensures CheckHolds(r, a, r.pcs[a]) { assert CheckHolds(s, a, s.pcs[a]); }
  }

  lemma SweepHolds(s: State, r: State)
    requires RowsHeld(s) && Swept(s, r)
    ensures RowsHeld(r) && forall a :: a in r.pcs && r.pcs[a].Holding? ==> r.pcs[a].pk in r.rows
  {
    forall a | a in r.pcs && r.pcs[a].Holding? ensures r.pcs[a].pk in r.rows && HoldsRow(r, a, r.pcs[a].role, r.pcs[a].pk) {
      assert HoldsRow(s, a, s.pcs[a].role, s.pcs[a].pk);
      assert Uncompleted(r, r.pcs[a].pk);
    }
  }

  lemma SweepRows(s: State, r: State)
    requires Present(s) && OneOpenRow(s) && InPlace(s) && NeverSuperseded(s) && BornInSource(s) && Historical(s)
    requires Swept(s, r) && Present(r)
    ensures OneOpenRow(r) && InPlace(r) && NeverSuperseded(r) && BornInSource(r) && Historical(r)
  {
    forall q | q in r.rows ensures RowHistorical(r, q) { assert RowHistorical(s, q); }
  }

  /** Fewer locks: every claim made under a lock only weakens. */
  lemma ExpiryKeeps(s: State, r: State)
    requires Inv(s) && r == s.(lock := r.lock)
    requires forall i :: i in r.lock ==> i in s.lock && r.lock[i] == s.lock[i]
    ensures Inv(r)
  {
    ExpiryRest(s, r);
    ExpiryHolds(s, r);
    ExpiryChecks(s, r);
    ExpiryRows(s, r);
  }

  lemma ExpiryRest(s: State, r: State)
    requires Present(s) && Declared(s) && TokensDistinct(s) && SlotsOwned(s) && OneOpenRow(s) && r == s.(lock := r.lock)
    requires forall i :: i in r.lock ==> i in s.lock && r.lock[i] == s.lock[i]
    ensures Present(r) && Declared(r) && TokensDistinct(r) && SlotsOwned(r) && OneOpenRow(r)
  {
    assert forall i :: NoOpenRow(s, i) <==> NoOpenRow(r, i);
  }

  lemma ExpiryHolds(s: State, r: State)
    requires RowsHeld(s) && r == s.(lock := r.lock)
    ensures RowsHeld(r)
  {
    forall a | a in r.pcs && r.pcs[a].Holding? ensures HoldsRow(r, a, r.pcs[a].role, r.pcs[a].pk) {
      assert HoldsRow(s, a, s.pcs[a].role, s.pcs[a].pk);
    }
  }

  lemma ExpiryChecks(s: State, r: State)
    requires Present(s) && ChecksHold(s) && r == s.(lock := r.lock) && Present(r)
    requires forall i :: i in r.lock ==> i in s.lock && r.lock[i] == s.lock[i]
    ensures ChecksHold(r)
  {
    forall a | a in r.pcs ensures CheckHolds(r, a, r.pcs[a]) {
      assert CheckHolds(s, a, s.pcs[a]);
      if InSection(s.pcs[a]) { SameRows(s, r, s.pcs[a].inst); }
    }
  }

  lemma ExpiryRows(s: State, r: State)
    requires Present(s) && InPlace(s) && NeverSuperseded(s) && BornInSource(s) && Historical(s)
    requires r == s.(lock := r.lock) && Present(r)
    ensures InPlace(r) && NeverSuperseded(r) && BornInSource(r) && Historical(r)
  {
    forall q | q in r.rows ensures RowHistorical(r, q) { assert RowHistorical(s, q); }
  }

  lemma TickKeeps(s: State, r: State)
    requires Inv(s) && r == s.(now := r.now) && s.now <= r.now
    ensures Inv(r)
  {
    TickHolds(s, r);
    TickRows(s, r);
    TickChecks(s, r);
    TickRest(s, r);
  }

  lemma TickRest(s: State, r: State)
    requires TokensDistinct(s) && SlotsOwned(s) && OneOpenRow(s) && Declared(s) && r == s.(now := r.now)
    ensures TokensDistinct(r) && SlotsOwned(r) && OneOpenRow(r) && Declared(r)
  {
    assert forall i :: NoOpenRow(s, i) ==> NoOpenRow(r, i);
  }

  lemma TickRows(s: State, r: State)
    requires Present(s) && InPlace(s) && NeverSuperseded(s) && BornInSource(s) && Historical(s)
    requires r == s.(now := r.now) && s.now <= r.now
    ensures Present(r) && InPlace(r) && NeverSuperseded(r) && BornInSource(r) && Historical(r)
  {
    forall q | q in r.rows ensures RowHistorical(r, q) { assert RowHistorical(s, q); }
  }

  lemma TickChecks(s: State, r: State)
    requires Present(s) && ChecksHold(s) && r == s.(now := r.now) && Present(r)
    ensures ChecksHold(r)
  {
    forall a | a in r.pcs ensures CheckHolds(r, a, r.pcs[a]) {
      assert CheckHolds(s, a, s.pcs[a]);
      if InSection(s.pcs[a]) { SameRows(s, r, s.pcs[a].inst); }
    }
  }

  lemma TickHolds(s: State, r: State)
    requires RowsHeld(s) && r == s.(now := r.now) && s.now <= r.now
    ensures RowsHeld(r)
  {
    forall a | a in r.pcs && r.pcs[a].Holding? ensures HoldsRow(r, a, r.pcs[a].role, r.pcs[a].pk) {
      assert HoldsRow(s, a, s.pcs[a].role, s.pcs[a].pk);
    }
  }

  // ----- the machine -----

  lemma ClockKeeps(s: State, ms: nat)
    requires Inv(s) && Enabled(s, Tick(ms))
    ensures Inv(Apply(s, Tick(ms)))
  {
    TickKeeps(s, Apply(s, Tick(ms)));
  }

  lemma OutsideKeeps(s: State, t: Step)
    requires Inv(s) && Enabled(s, t) && (t.Sweep? || t.ExternalWrite?)
    ensures Inv(Apply(s, t))
  {
    if t.Sweep? { SweepKeeps(s, t.gone); } else { MovedKeeps(s, t.i, t.state, {}); }
  }

  lemma EnvironmentKeeps(s: State, t: Step)
    requires Inv(s) && Enabled(s, t)
    requires t.Sweep? || t.ExternalWrite? || t.ExpireHeld? || t.ExpireOrphan? || t.Tick?
    ensures Inv(Apply(s, t))
  {
    match t
    case ExpireHeld(a) => HeldExpiryKeeps(s, a);
    case ExpireOrphan(i) => OrphanExpiryKeeps(s, i);
    case Tick(ms) => ClockKeeps(s, ms);
    case _ => OutsideKeeps(s, t);
  }

  lemma HeldExpiryKeeps(s: State, a: Actor)
    requires Inv(s) && Enabled(s, ExpireHeld(a))
    ensures Inv(Apply(s, ExpireHeld(a)))
  {
    var r := Apply(s, ExpireHeld(a));
    assert r == s.(lock := r.lock);
    ExpiryKeeps(s, r);
  }

  lemma OrphanExpiryKeeps(s: State, i: Inst)
    requires Inv(s) && Enabled(s, ExpireOrphan(i))
    ensures Inv(Apply(s, ExpireOrphan(i)))
  {
    var r := Apply(s, ExpireOrphan(i));
    assert r == s.(lock := r.lock);
    ExpiryKeeps(s, r);
  }

  lemma StepKeeps(s: State, t: Step)
    requires Inv(s) && Enabled(s, t)
    ensures Inv(Apply(s, t))
  {
    match t
    case Begin(a, b) => BeginKeeps(s, a, b);
    case Enq(a, m) => EnqueueKeeps(s, a, m);
    case Sync(a, m) => SyncKeeps(s, a, m);
    case Act(a, m) => ActionKeeps(s, a, m);
    case Unlock(a) => UnlockKeeps(s, a);
    case Work(a, m) => if PcOf(s, a).Holding? { HolderKeeps(s, a, m); } else { LooseWorkKeeps(s, a, m); }
    case Crash(a, noticed) => CrashKeeps(s, a, noticed);
    case _ => EnvironmentKeeps(s, t);
  }

  ghost predicate Initial(s: State) {
    && ValidConfig(s.cfg)
    && s.rows == map[] && s.lock == map[] && s.slot == map[] && s.rowLock == map[] && s.pcs == map[]
    && s.touched == {} && s.disturbed == {} && s.births == map[] && s.events == map[]
  }

  /** `trace` is a run: it starts initially and each state follows by an enabled step. */
  ghost predicate Run(trace: seq<State>, steps: seq<Step>) {
    && |trace| == |steps| + 1 && Initial(trace[0])
    && forall k :: 0 <= k < |steps| ==>
         Present(trace[k]) && Enabled(trace[k], steps[k]) && trace[k + 1] == Apply(trace[k], steps[k])
  }

  lemma {:induction false} RunKeeps(trace: seq<State>, steps: seq<Step>, n: nat)
    requires Run(trace, steps) && n < |trace|
    ensures Inv(trace[n])
  {
    if n > 0 {
      RunKeeps(trace, steps, n - 1);
      StepKeeps(trace[n - 1], steps[n - 1]);
    }
  }
}
