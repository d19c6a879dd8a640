/** What every step of the protocol keeps. */
module ProtocolInvariant {
  import opened Wrappers
  import opened Messages
  import opened Protocol

  /** Every acquisition got a token of its own. */
  ghost predicate TokensDistinct(s: State) {
    && (forall i :: i in s.lock ==> s.lock[i] < s.nextTok)
    && (forall a :: a in s.pcs && InSection(s.pcs[a]) ==> s.pcs[a].tok < s.nextTok)
    && (forall a, b :: a in s.pcs && b in s.pcs && InSection(s.pcs[a]) && InSection(s.pcs[b]) && a != b ==>
          s.pcs[a].tok != s.pcs[b].tok)
  }

  /** Pending inserts: one per instance, and never beside an uncompleted row. */
  ghost predicate SlotsOwned(s: State) {
    && (forall i :: i in s.slot ==>
          s.slot[i] in s.pcs && HasSlot(s.pcs[s.slot[i]]) && s.pcs[s.slot[i]].inst == i && NoOpenRow(s, i))
    && (forall a :: a in s.pcs && HasSlot(s.pcs[a]) ==> s.pcs[a].inst in s.slot && s.slot[s.pcs[a].inst] == a)
  }

  ghost predicate OneOpenRow(s: State) {
    forall p, q :: Uncompleted(s, p) && Uncompleted(s, q) && s.rows[p].inst == s.rows[q].inst ==> p == q
  }

  /** A held row is uncompleted, and stays what its holder found. */
  ghost predicate HoldsRow(s: State, a: Actor, role: Role, pk: Pk) {
    && pk in s.rowLock && s.rowLock[pk] == a
    && Uncompleted(s, pk)
    && (role.WatchdogFinal? ==>
          s.rows[pk].message.Chargeable(s.now) && s.rows[pk].message.errorsCount + 1 >= s.cfg.maxErrors)
    && (role.StuckFinal? ==> s.rows[pk].message.errorsCount >= s.cfg.maxErrors)
  }

  ghost predicate RowsHeld(s: State) {
    && (forall pk :: pk in s.rowLock ==>
          s.rowLock[pk] in s.pcs && s.pcs[s.rowLock[pk]].Holding? && s.pcs[s.rowLock[pk]].pk == pk)
    && (forall a :: a in s.pcs && s.pcs[a].Holding? ==> HoldsRow(s, a, s.pcs[a].role, s.pcs[a].pk))
  }

  /** Declarations are valid and keys are fresh. */
  ghost predicate Declared(s: State) {
    && ValidConfig(s.cfg)
    && (forall pk :: pk in s.rows ==> ValidDecl(s.rows[pk].decl))
    && (forall pk :: pk in s.rows || pk in s.events || pk in s.births || pk in s.disturbed ==> pk.n < s.nextPk)
    && (forall a :: a in s.pcs && s.pcs[a].Enqueuing? ==> ValidDecl(s.pcs[a].decl))
  }

  /** The instance of an uncompleted row that nobody disturbed is where enqueue left it. */
  ghost predicate InPlace(s: State)
    requires Present(s)
  {
    forall pk :: Uncompleted(s, pk) && pk !in s.disturbed ==>
      AtRest(s.rows[pk].decl, s.db[s.rows[pk].inst])
  }

  ghost predicate NeverSuperseded(s: State) {
    forall pk :: pk in s.rows && s.rows[pk].message.note == SupersededNote ==> pk in s.disturbed
  }

  /** What the uncompleted rows of `i` can still do to its state was foreseen. */
  ghost predicate Foreseen(s: State, i: Inst, outcomes: set<Option<string>>) {
    forall pk :: OpenOn(s, pk, i) ==> s.rows[pk].decl.target in outcomes && s.rows[pk].decl.failedState in outcomes
  }

  /** Between its recheck and its commit an untouched enqueue's instance stays
      in a source. While it holds its lock untouched, a synchronous transition
      past its gate shares its instance with no row, and the state it read has
      moved, if at all, to where a row open at the read could leave it. */
  ghost predicate CheckHolds(s: State, a: Actor, pc: Pc)
    requires InSection(pc) ==> pc.inst in s.db
  {
    match pc
    case Enqueuing(Rechecked, i, decl, _, seen) =>
      seen in decl.sources && (a !in s.touched ==> s.db[i] in decl.sources)
    case Syncing(passed, read, i, decl, _, outcomes) =>
      && (passed ==> read)
      && (HoldsLock(s, pc) && a !in s.touched ==>
            && (passed ==> NoOpenRow(s, i))
            && (read ==> Foreseen(s, i, outcomes) && (s.db[i] in decl.sources || Some(s.db[i]) in outcomes)))
    case Acting(probed, i, _, _) => HoldsLock(s, pc) && a !in s.touched && probed ==> NoOpenRow(s, i)
    case _ => true
  }

  ghost predicate ChecksHold(s: State)
    requires Present(s)
  {
    forall a :: a in s.pcs ==> CheckHolds(s, a, s.pcs[a])
  }

  ghost predicate BornInSource(s: State)
    requires Present(s)
  {
    forall pk :: pk in s.rows ==>
      && s.births[pk].seen in s.rows[pk].decl.sources
      && (!s.births[pk].touched ==> s.births[pk].atCommit in s.rows[pk].decl.sources)
  }

  /** Each row is the outcome of its recorded writes, all allowed when they happened. */
  ghost predicate RowHistorical(s: State, pk: Pk)
    requires Present(s) && pk in s.rows
  {
    var b := s.births[pk].message;
    && Clocked(b, b.created) && !b.isCompleted && b.errorsCount == 0
    && History(b, s.events[pk], s.cfg, b.created)
    && After(b, s.events[pk], s.cfg) == s.rows[pk].message
    && End(s.events[pk], b.created) <= s.now
  }

  ghost predicate Historical(s: State)
    requires Present(s)
  {
    forall pk :: pk in s.rows ==> RowHistorical(s, pk)
  }

  ghost predicate Inv(s: State) {
    && Present(s) && Declared(s) && TokensDistinct(s) && SlotsOwned(s) && OneOpenRow(s) && RowsHeld(s)
    && InPlace(s) && NeverSuperseded(s) && ChecksHold(s) && BornInSource(s) && Historical(s)
  }

  /** Writing a row through an allowed operation extends its history. */
  lemma WroteKeepsHistory(s: State, pk: Pk, op: Op)
    requires Present(s) && Historical(s) && pk in s.rows && Allowed(s.rows[pk].message, op, s.cfg, s.now)
    ensures Historical(Wrote(s, pk, op)) && Present(Wrote(s, pk, op))
  {
    var b := s.births[pk].message;
    HistoryExtends(b, s.events[pk], Event(op, s.now), s.cfg, b.created);
    var r := Wrote(s, pk, op);
    forall q | q in r.rows ensures RowHistorical(r, q) {
      assert RowHistorical(s, q);
    }
  }


  // ----- steps that only move an actor -----

  /** `r` is `s` with actor `a` elsewhere, and perhaps other locks. */
  ghost predicate ActorMoved(s: State, r: State, a: Actor) {
    && a in r.pcs && r.pcs == s.pcs[a := r.pcs[a]]
    && r == s.(pcs := r.pcs, lock := r.lock, nextTok := r.nextTok, slot := r.slot, rowLock := r.rowLock, touched := r.touched)
    && (forall b :: b != a ==> (b in r.touched <==> b in s.touched))
  }

  /** Nobody else gained a lock. */
  ghost predicate NoLockGained(s: State, r: State, a: Actor) {
    forall b :: b in s.pcs && b != a && InSection(s.pcs[b]) && HoldsLock(r, s.pcs[b]) ==> HoldsLock(s, s.pcs[b])
  }

  lemma MovedRows(s: State, r: State, a: Actor)
    requires Present(s) && Declared(s) && OneOpenRow(s) && InPlace(s) && NeverSuperseded(s) && BornInSource(s) && Historical(s)
    requires ActorMoved(s, r, a)
    requires InSection(r.pcs[a]) ==> r.pcs[a].inst in s.db
    requires r.pcs[a].Holding? ==> r.pcs[a].pk in s.rows
    requires r.pcs[a].Enqueuing? ==> ValidDecl(r.pcs[a].decl)
    ensures Present(r) && Declared(r) && OneOpenRow(r) && InPlace(r) && NeverSuperseded(r) && BornInSource(r) && Historical(r)
  {
    MovedPresent(s, r, a);
    MovedHistory(s, r, a);
  }

  lemma MovedPresent(s: State, r: State, a: Actor)
    requires Present(s) && Declared(s) && ActorMoved(s, r, a)
    requires InSection(r.pcs[a]) ==> r.pcs[a].inst in s.db
    requires r.pcs[a].Holding? ==> r.pcs[a].pk in s.rows
    requires r.pcs[a].Enqueuing? ==> ValidDecl(r.pcs[a].decl)
    ensures Present(r) && Declared(r)
  {
    assert forall b :: b in r.pcs && b != a ==> b in s.pcs && r.pcs[b] == s.pcs[b];
  }

  lemma MovedHistory(s: State, r: State, a: Actor)
    requires Present(s) && Historical(s) && ActorMoved(s, r, a) && Present(r)
    ensures Historical(r)
  {
    forall q | q in r.rows ensures RowHistorical(r, q) { assert RowHistorical(s, q); }
  }

  lemma MovedChecks(s: State, r: State, a: Actor)
    requires Present(s) && ChecksHold(s) && ActorMoved(s, r, a) && NoLockGained(s, r, a) && Present(r)
    requires CheckHolds(r, a, r.pcs[a])
    ensures ChecksHold(r)
  {
    forall b | b in r.pcs ensures CheckHolds(r, b, r.pcs[b]) {
      if b != a {
        assert CheckHolds(s, b, s.pcs[b]);
        if InSection(s.pcs[b]) { SameRows(s, r, s.pcs[b].inst); }
      }
    }
  }

  lemma SameRows(s: State, r: State, i: Inst)
    requires r.rows == s.rows
    ensures NoOpenRow(s, i) <==> NoOpenRow(r, i)
    ensures forall outcomes :: Foreseen(s, i, outcomes) <==> Foreseen(r, i, outcomes)
  {
    assert forall pk :: OpenOn(s, pk, i) <==> OpenOn(r, pk, i);
  }

  lemma MovedLocks(s: State, r: State, a: Actor)
    requires TokensDistinct(s) && ActorMoved(s, r, a) && r.lock == s.lock && r.nextTok == s.nextTok
    requires InSection(r.pcs[a]) ==>
               InSection(PcOf(s, a)) && r.pcs[a].inst == PcOf(s, a).inst && r.pcs[a].tok == PcOf(s, a).tok
    ensures TokensDistinct(r)
  {
    assert forall b :: b in r.pcs && b != a ==> b in s.pcs && r.pcs[b] == s.pcs[b];
  }

  lemma MovedSlots(s: State, r: State, a: Actor)
    requires SlotsOwned(s) && ActorMoved(s, r, a)
    requires !HasSlot(r.pcs[a])
    requires r.slot == if HasSlot(PcOf(s, a)) then s.slot - {PcOf(s, a).inst} else s.slot
    ensures SlotsOwned(r)
  {
    assert forall b :: b in r.pcs && b != a ==> b in s.pcs && r.pcs[b] == s.pcs[b];
  }

  lemma MovedHolds(s: State, r: State, a: Actor)
    requires RowsHeld(s) && ActorMoved(s, r, a)
    requires !r.pcs[a].Holding?
    requires r.rowLock == if PcOf(s, a).Holding? then s.rowLock - {PcOf(s, a).pk} else s.rowLock
    ensures RowsHeld(r)
  {
    assert forall b :: b in r.pcs && b != a ==> b in s.pcs && r.pcs[b] == s.pcs[b];
  }

  /** Leaving a critical section for its finally: any failed check or exception. */
  lemma ToReleasingKeeps(s: State, a: Actor, r: State)
    requires Inv(s) && InSection(PcOf(s, a)) && ActorMoved(s, r, a)
    requires r.pcs[a] == Releasing(PcOf(s, a).inst, PcOf(s, a).tok)
    requires r.lock == s.lock && r.nextTok == s.nextTok && r.rowLock == s.rowLock
    requires r.slot == if HasSlot(PcOf(s, a)) then s.slot - {PcOf(s, a).inst} else s.slot
    ensures Inv(r)
  {
    MovedRows(s, r, a);
    MovedChecks(s, r, a);
    MovedLocks(s, r, a);
    MovedSlots(s, r, a);
    MovedHolds(s, r, a);
  }

  lemma LockTakenKeeps(s: State, a: Actor, i: Inst, pc: Pc)
    requires Inv(s) && PcOf(s, a).Idle? && i in s.db && i !in s.lock
    requires InSection(pc) && pc.inst == i && pc.tok == s.nextTok && !HasSlot(pc)
    requires pc.Enqueuing? ==> ValidDecl(pc.decl)
    requires (pc.Syncing? ==> !pc.read && !pc.passed) && (pc.Acting? ==> !pc.probed)
    ensures Inv(TakeLock(s, a, i, pc))
  {
    var r := TakeLock(s, a, i, pc);
    MovedRows(s, r, a);
    LockTakenTokens(s, a, i, pc);
    MovedChecks(s, r, a);
    MovedSlots(s, r, a);
    MovedHolds(s, r, a);
  }

  lemma LockTakenTokens(s: State, a: Actor, i: Inst, pc: Pc)
    requires TokensDistinct(s) && i !in s.lock && InSection(pc) && pc.inst == i && pc.tok == s.nextTok
    ensures TokensDistinct(TakeLock(s, a, i, pc)) && NoLockGained(s, TakeLock(s, a, i, pc), a)
  {
    var r := TakeLock(s, a, i, pc);
    assert forall b :: b in r.pcs && b != a ==> b in s.pcs && r.pcs[b] == s.pcs[b];
  }

  lemma UnlockKeeps(s: State, a: Actor)
    requires Inv(s) && PcOf(s, a).Releasing?
    ensures Inv(UnlockApply(s, a, PcOf(s, a)))
  {
    var r := UnlockApply(s, a, PcOf(s, a));
    UnlockShape(s, a);
    MovedRows(s, r, a);
    FewerLocks(s, r, a);
    MovedChecks(s, r, a);
    MovedSlots(s, r, a);
    MovedHolds(s, r, a);
    TokensShrink(s, r, a);
  }

  lemma FewerLocks(s: State, r: State, a: Actor)
    requires forall i :: i in r.lock ==> i in s.lock && r.lock[i] == s.lock[i]
    ensures NoLockGained(s, r, a)
  {}

  lemma UnlockShape(s: State, a: Actor)
    requires PcOf(s, a).Releasing?
    ensures var r, pc := UnlockApply(s, a, PcOf(s, a)), PcOf(s, a);
            && ActorMoved(s, r, a) && r.pcs[a].Idle?
            && r.slot == s.slot && r.rowLock == s.rowLock && r.nextTok == s.nextTok
            && !(pc.inst in r.lock && r.lock[pc.inst] == pc.tok)
            && (forall i :: i in r.lock ==> i in s.lock && r.lock[i] == s.lock[i])
            && (forall i :: i in s.lock && i !in r.lock ==> i == pc.inst && s.lock[i] == pc.tok)
  {}

  lemma TokensShrink(s: State, r: State, a: Actor)
    requires TokensDistinct(s) && ActorMoved(s, r, a) && !InSection(r.pcs[a]) && r.nextTok == s.nextTok
    requires forall i :: i in r.lock ==> i in s.lock && r.lock[i] == s.lock[i]
    ensures TokensDistinct(r)
  {
    assert forall b :: b in r.pcs && InSection(r.pcs[b]) ==> b != a && b in s.pcs && r.pcs[b] == s.pcs[b];
  }

  lemma CrashKeeps(s: State, a: Actor, noticed: bool)
    requires Inv(s) && Enabled(s, Crash(a, noticed))
    ensures Inv(CrashApply(s, a, PcOf(s, a), noticed))
  {
    var r := CrashApply(s, a, PcOf(s, a), noticed);
    CrashShape(s, a, noticed);
    MovedRows(s, r, a);
    MovedChecks(s, r, a);
    MovedLocks(s, r, a);
    MovedSlots(s, r, a);
    MovedHolds(s, r, a);
  }

  lemma CrashShape(s: State, a: Actor, noticed: bool)
    requires Enabled(s, Crash(a, noticed))
    ensures var r, pc := CrashApply(s, a, PcOf(s, a), noticed), PcOf(s, a);
            && ActorMoved(s, r, a) && r.lock == s.lock && r.nextTok == s.nextTok && r.touched == s.touched
            && (r.pcs[a].Idle? || r.pcs[a].Dead?)
            && r.slot == (if HasSlot(pc) then s.slot - {pc.inst} else s.slot)
            && r.rowLock == (if pc.Holding? then s.rowLock - {pc.pk} else s.rowLock)
  {}

  // ----- taking a row -----

  lemma TakenKeeps(s: State, a: Actor, pk: Pk, role: Role)
    requires Inv(s) && Free(s, pk) && (PcOf(s, a).Idle? || PcOf(s, a).Stamped?)
    requires role.WatchdogFinal? ==>
               s.rows[pk].message.Chargeable(s.now) && s.rows[pk].message.errorsCount + 1 >= s.cfg.maxErrors
    requires role.StuckFinal? ==> s.rows[pk].message.errorsCount >= s.cfg.maxErrors
    ensures Inv(At(s.(rowLock := s.rowLock[pk := a]), a, Holding(role, false, pk)))
  {
    var r := At(s.(rowLock := s.rowLock[pk := a]), a, Holding(role, false, pk));
    MovedRows(s, r, a);
    MovedChecks(s, r, a);
    MovedLocks(s, r, a);
    MovedSlots(s, r, a);
    TakenHeld(s, a, pk, role);
  }

  lemma TakenHeld(s: State, a: Actor, pk: Pk, role: Role)
    requires RowsHeld(s) && Free(s, pk) && (PcOf(s, a).Idle? || PcOf(s, a).Stamped?)
    requires role.WatchdogFinal? ==>
               s.rows[pk].message.Chargeable(s.now) && s.rows[pk].message.errorsCount + 1 >= s.cfg.maxErrors
    requires role.StuckFinal? ==> s.rows[pk].message.errorsCount >= s.cfg.maxErrors
    ensures RowsHeld(At(s.(rowLock := s.rowLock[pk := a]), a, Holding(role, false, pk)))
  {
    var r := At(s.(rowLock := s.rowLock[pk := a]), a, Holding(role, false, pk));
    forall b | b in r.pcs && r.pcs[b].Holding? ensures HoldsRow(r, b, r.pcs[b].role, r.pcs[b].pk) {
      if b != a {
        assert HoldsRow(s, b, s.pcs[b].role, s.pcs[b].pk);
      }
    }
    forall q | q in r.rowLock ensures r.rowLock[q] in r.pcs && r.pcs[r.rowLock[q]].Holding? && r.pcs[r.rowLock[q]].pk == q {
      if q != pk { assert s.rowLock[q] != a; }
    }
  }
}
