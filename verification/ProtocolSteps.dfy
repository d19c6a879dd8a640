/** Each kind of step keeps the invariant of the protocol. */
module ProtocolSteps {
  import opened Wrappers
  import opened Messages
  import opened Protocol
  import opened ProtocolInvariant

  // ----- writes of a row -----

  /** Row `pk` got one more write; nothing was opened, nothing else changed. */
  ghost predicate RowWritten(s: State, r: State, pk: Pk) {
    && pk in s.rows && r.rows.Keys == s.rows.Keys && r.events.Keys == s.events.Keys
    && (forall q :: q in s.rows && q != pk ==> r.rows[q] == s.rows[q] && q in s.events && r.events[q] == s.events[q])
    && r.rows[pk].inst == s.rows[pk].inst && r.rows[pk].decl == s.rows[pk].decl
    && (s.rows[pk].message.isCompleted ==> r.rows[pk].message.isCompleted)
    && r == s.(rows := r.rows, events := r.events)
  }

  lemma WroteIsWritten(s: State, pk: Pk, op: Op)
    requires Present(s) && pk in s.rows && Allowed(s.rows[pk].message, op, s.cfg, s.now)
    ensures RowWritten(s, Wrote(s, pk, op), pk)
  {}

  lemma WrittenOpens(s: State, r: State, pk: Pk)
    requires RowWritten(s, r, pk)
    ensures forall q :: Uncompleted(r, q) ==> Uncompleted(s, q)
    ensures forall i :: NoOpenRow(s, i) ==> NoOpenRow(r, i)
  {}

  lemma WrittenRows(s: State, r: State, pk: Pk)
    requires Present(s) && Declared(s) && OneOpenRow(s) && InPlace(s) && BornInSource(s) && RowWritten(s, r, pk) && Present(r)
    ensures Declared(r) && OneOpenRow(r) && InPlace(r) && BornInSource(r)
  {
    WrittenOpens(s, r, pk);
    assert forall q :: q in r.rows ==> r.rows[q].inst == s.rows[q].inst && r.rows[q].decl == s.rows[q].decl;
  }

  lemma WrittenNotes(s: State, r: State, pk: Pk)
    requires NeverSuperseded(s) && RowWritten(s, r, pk)
    requires r.rows[pk].message.note == SupersededNote ==> pk in s.disturbed
    ensures NeverSuperseded(r)
  {}

  lemma WrittenActors(s: State, r: State, pk: Pk)
    requires Present(s) && TokensDistinct(s) && SlotsOwned(s) && ChecksHold(s) && RowWritten(s, r, pk) && Present(r)
    ensures TokensDistinct(r) && SlotsOwned(r) && ChecksHold(r)
  {
    WrittenOpens(s, r, pk);
    assert forall i, outcomes :: Foreseen(s, i, outcomes) ==> Foreseen(r, i, outcomes);
    forall a | a in r.pcs ensures CheckHolds(r, a, r.pcs[a]) {
      assert CheckHolds(s, a, s.pcs[a]);
    }
  }

  lemma WrittenHolds(s: State, r: State, pk: Pk)
    requires RowsHeld(s) && RowWritten(s, r, pk) && pk !in s.rowLock
    ensures RowsHeld(r)
  {
    forall a | a in r.pcs && r.pcs[a].Holding? ensures HoldsRow(r, a, r.pcs[a].role, r.pcs[a].pk) {
      assert HoldsRow(s, a, s.pcs[a].role, s.pcs[a].pk);
    }
  }

  /** A write of a row nobody holds: a stamp, a charge, a recorded death, a
      give-up, or a holder's last write once its row lock is gone. */
  lemma FreeWriteKeeps(s: State, pk: Pk, op: Op)
    requires Inv(s) && Free(s, pk) && Allowed(s.rows[pk].message, op, s.cfg, s.now)
    requires Messages.Write(s.rows[pk].message, op, s.cfg, s.now).note == SupersededNote ==> pk in s.disturbed
    ensures Inv(Wrote(s, pk, op))
  {
    var r := Wrote(s, pk, op);
    WroteKeepsHistory(s, pk, op);
    WroteIsWritten(s, pk, op);
    WrittenRows(s, r, pk);
    WrittenNotes(s, r, pk);
    WrittenActors(s, r, pk);
    WrittenHolds(s, r, pk);
  }

  /** An actor that owns nothing goes where it owns nothing. */
  lemma IdleMoveKeeps(s: State, a: Actor, pc: Pc)
    requires Inv(s)
    requires var o := PcOf(s, a); !InSection(o) && !o.Holding?
    requires !InSection(pc) && !pc.Holding?
    ensures Inv(At(s, a, pc))
  {
    var r := At(s, a, pc);
    MovedRows(s, r, a);
    MovedChecks(s, r, a);
    MovedLocks(s, r, a);
    MovedSlots(s, r, a);
    MovedHolds(s, r, a);
  }

  // ----- the end of an attempt or a finalization -----

  /** The holder's write completes or charges the row, and its row lock goes. */
  lemma SettledKeeps(s: State, a: Actor, op: Op)
    requires Inv(s) && PcOf(s, a).Holding?
    requires var pk := PcOf(s, a).pk;
             && pk in s.rows && Allowed(s.rows[pk].message, op, s.cfg, s.now)
             && (Messages.Write(s.rows[pk].message, op, s.cfg, s.now).note == SupersededNote ==> pk in s.disturbed)
    ensures var pk := PcOf(s, a).pk; pk in s.events && Inv(Settled(s, a, pk, op))
  {
    // the same state is reached by letting the row go first, then writing it
    var pk := PcOf(s, a).pk;
    var free := At(s.(rowLock := s.rowLock - {pk}), a, Idle);
    ReleaseRowKeeps(s, a, Idle);
    FreeWriteKeeps(free, pk, op);
    assert Settled(s, a, pk, op) == Wrote(free, pk, op);
  }

  lemma ReleaseRowKeeps(s: State, a: Actor, pc: Pc)
    requires Inv(s) && PcOf(s, a).Holding? && !InSection(pc) && !pc.Holding?
    ensures Inv(At(s.(rowLock := s.rowLock - {PcOf(s, a).pk}), a, pc))
  {
    var r := At(s.(rowLock := s.rowLock - {PcOf(s, a).pk}), a, pc);
    MovedRows(s, r, a);
    MovedChecks(s, r, a);
    MovedLocks(s, r, a);
    MovedSlots(s, r, a);
    MovedHolds(s, r, a);
  }

  // ----- writes of the state -----

  /** The state of `i` moved, in one of two ways: callers and rows there know
      that they were disturbed, or nobody is there to be. */
  ghost predicate StateMoved(t: State, i: Inst, v: string, r: State) {
    && i in t.db && r == t.(db := t.db[i := v], touched := r.touched, disturbed := r.disturbed)
    && t.touched <= r.touched && t.disturbed <= r.disturbed
    && (forall pk :: pk in r.disturbed ==> pk in t.disturbed || pk in t.rows)
  }

  lemma StateMoveKeeps(t: State, i: Inst, v: string, r: State)
    requires Inv(t) && StateMoved(t, i, v, r)
    requires forall pk :: OpenOn(t, pk, i) ==> pk in r.disturbed
    requires forall a :: a in t.pcs && InSection(t.pcs[a]) && t.pcs[a].inst == i ==> CheckHolds(r, a, t.pcs[a])
    ensures Inv(r)
  {
    StateMovePresent(t, i, v, r);
    StateMoveChecks(t, i, v, r);
    StateMoveRows(t, i, v, r);
    StateMoveHolds(t, i, v, r);
    StateMoveHistory(t, i, v, r);
  }

  lemma StateMovePresent(t: State, i: Inst, v: string, r: State)
    requires Present(t) && Declared(t) && TokensDistinct(t) && SlotsOwned(t) && OneOpenRow(t) && StateMoved(t, i, v, r)
    ensures Present(r) && Declared(r) && TokensDistinct(r) && SlotsOwned(r) && OneOpenRow(r)
  {
    assert forall j :: NoOpenRow(t, j) <==> NoOpenRow(r, j);
  }

  lemma StateMoveChecks(t: State, i: Inst, v: string, r: State)
    requires Present(t) && ChecksHold(t) && StateMoved(t, i, v, r) && Present(r)
    requires forall a :: a in t.pcs && InSection(t.pcs[a]) && t.pcs[a].inst == i ==> CheckHolds(r, a, t.pcs[a])
    ensures ChecksHold(r)
  {
    forall a | a in r.pcs ensures CheckHolds(r, a, r.pcs[a]) {
      assert CheckHolds(t, a, t.pcs[a]);
      if InSection(t.pcs[a]) { SameRows(t, r, t.pcs[a].inst); }
    }
  }

  lemma StateMoveRows(t: State, i: Inst, v: string, r: State)
    requires Present(t) && InPlace(t) && NeverSuperseded(t) && BornInSource(t) && StateMoved(t, i, v, r) && Present(r)
    requires forall pk :: OpenOn(t, pk, i) ==> pk in r.disturbed
    ensures InPlace(r) && NeverSuperseded(r) && BornInSource(r)
  {
    forall pk | Uncompleted(r, pk) && pk !in r.disturbed ensures AtRest(r.rows[pk].decl, r.db[r.rows[pk].inst]) {
      assert Uncompleted(t, pk) && !OpenOn(t, pk, i);
    }
  }

  lemma StateMoveHistory(t: State, i: Inst, v: string, r: State)
    requires Present(t) && Historical(t) && StateMoved(t, i, v, r) && Present(r)
    ensures Historical(r)
  {
    forall q | q in r.rows ensures RowHistorical(r, q) { assert RowHistorical(t, q); }
  }

  lemma StateMoveHolds(t: State, i: Inst, v: string, r: State)
    requires RowsHeld(t) && StateMoved(t, i, v, r)
    ensures RowsHeld(r)
  {
    forall a | a in r.pcs && r.pcs[a].Holding? ensures HoldsRow(r, a, r.pcs[a].role, r.pcs[a].pk) {
      assert HoldsRow(t, a, t.pcs[a].role, t.pcs[a].pk);
    }
  }

  /** A write from outside, or by a caller on its way out of its section. */
  lemma MovedKeeps(t: State, i: Inst, v: string, writers: set<Actor>)
    requires Inv(t) && i in t.db
    requires forall a :: a in writers && a in t.pcs ==> !InSection(t.pcs[a]) || t.pcs[a].Releasing?
    ensures Inv(Moved(t, i, v, writers))
  {
    var r := Moved(t, i, v, writers);
    forall a | a in t.pcs && InSection(t.pcs[a]) && t.pcs[a].inst == i ensures CheckHolds(r, a, t.pcs[a]) {
      TouchedChecks(t, i, v, writers, a);
    }
    StateMoveKeeps(t, i, v, r);
  }

  lemma TouchedChecks(t: State, i: Inst, v: string, writers: set<Actor>, a: Actor)
    requires Present(t) && ChecksHold(t) && i in t.db && a in t.pcs && InSection(t.pcs[a]) && t.pcs[a].inst == i
    requires a in writers ==> t.pcs[a].Releasing?
    ensures CheckHolds(Moved(t, i, v, writers), a, t.pcs[a])
  {
    assert CheckHolds(t, a, t.pcs[a]);
    assert a in CallersOn(t, i);
  }

  /** A worker moves the state together with the completion of the row that
      kept everyone else off the instance. */
  lemma OwnerMovesState(s: State, a: Actor, op: Op, v: Option<string>)
    requires Inv(s) && PcOf(s, a).Holding?
    requires var pk := PcOf(s, a).pk;
             && pk in s.rows && Allowed(s.rows[pk].message, op, s.cfg, s.now)
             && (Messages.Write(s.rows[pk].message, op, s.cfg, s.now).note == SupersededNote ==> pk in s.disturbed)
             && Messages.Write(s.rows[pk].message, op, s.cfg, s.now).isCompleted
             && (v == s.rows[pk].decl.target || v == s.rows[pk].decl.failedState)
    ensures var pk := PcOf(s, a).pk;
            pk in s.events && Inv(SetState(Settled(s, a, pk, op), s.rows[pk].inst, v))
  {
    SettledKeeps(s, a, op);
    var pk := PcOf(s, a).pk;
    assert HoldsRow(s, a, PcOf(s, a).role, pk);
    if v.Some? {
      SettledShape(s, a, pk, op);
      OwnerMoves(s, Settled(s, a, pk, op), a, pk, v.value);
    }
  }

  lemma SettledShape(s: State, a: Actor, pk: Pk, op: Op)
    requires pk in s.rows && pk in s.events
    ensures var t := Settled(s, a, pk, op);
            && t.rows.Keys == s.rows.Keys && (forall q :: q in s.rows && q != pk ==> t.rows[q] == s.rows[q])
            && t.db == s.db && t.touched == s.touched && t.disturbed == s.disturbed && t.lock == s.lock
            && t.pcs == s.pcs[a := Idle]
            && t.rows[pk].message == Messages.Write(s.rows[pk].message, op, s.cfg, s.now)
  {}

  lemma OwnerMoves(s: State, t: State, a: Actor, pk: Pk, v: string)
    requires Present(s) && SlotsOwned(s) && ChecksHold(s) && OneOpenRow(s) && Uncompleted(s, pk)
    requires Inv(t) && pk in t.rows && t.rows[pk].message.isCompleted
    requires t.rows.Keys == s.rows.Keys && forall q :: q in s.rows && q != pk ==> t.rows[q] == s.rows[q]
    requires t.db == s.db && t.touched == s.touched && t.disturbed == s.disturbed && t.lock == s.lock
    requires t.pcs == s.pcs[a := Idle]
    requires Some(v) == s.rows[pk].decl.target || Some(v) == s.rows[pk].decl.failedState
    ensures Inv(SetState(t, s.rows[pk].inst, Some(v)))
  {
    var i := s.rows[pk].inst;
    var r := SetState(t, i, Some(v));
    NothingElseOpen(s, t, pk);
    forall b | b in t.pcs && InSection(t.pcs[b]) && t.pcs[b].inst == i ensures CheckHolds(r, b, t.pcs[b]) {
      OwnerExcludes(s, r, pk, b);
    }
    StateMoveKeeps(t, i, v, r);
  }

  /** While a row is open nobody's check pins the state of its instance; a
      synchronous transition that has read it foresaw where the row may move it. */
  lemma OwnerExcludes(s: State, r: State, pk: Pk, b: Actor)
    requires Present(s) && SlotsOwned(s) && ChecksHold(s) && Uncompleted(s, pk)
    requires b in s.pcs && InSection(s.pcs[b]) && s.pcs[b].inst == s.rows[pk].inst
    requires r.touched == s.touched && s.pcs[b].inst in r.db && r.lock == s.lock
    requires Some(r.db[s.rows[pk].inst]) in {s.rows[pk].decl.target, s.rows[pk].decl.failedState}
    requires forall q :: Uncompleted(r, q) ==> r.rows[q].inst != s.rows[pk].inst
    ensures CheckHolds(r, b, s.pcs[b])
  {
    assert !NoOpenRow(s, s.rows[pk].inst);
    assert CheckHolds(s, b, s.pcs[b]);
    assert !HasSlot(s.pcs[b]);
    assert OpenOn(s, pk, s.pcs[b].inst);
    assert forall q :: OpenOn(r, q, s.pcs[b].inst) ==> Uncompleted(r, q);
  }

  lemma NothingElseOpen(s: State, t: State, pk: Pk)
    requires OneOpenRow(s) && Uncompleted(s, pk) && pk in t.rows && t.rows[pk].message.isCompleted
    requires t.rows.Keys == s.rows.Keys && forall q :: q in s.rows && q != pk ==> t.rows[q] == s.rows[q]
    ensures forall q :: Uncompleted(t, q) ==> t.rows[q].inst != s.rows[pk].inst
    ensures !NoOpenRow(s, s.rows[pk].inst)
  {
    forall q | Uncompleted(t, q) ensures t.rows[q].inst != s.rows[pk].inst {
      assert Uncompleted(s, q);
    }
  }
}
