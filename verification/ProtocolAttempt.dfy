/** The worker moves of the protocol are what the attempt's transaction does:
    each attempt, whatever its side-effects, is a run of moves that ends in the
    same state column and the same row. */
module ProtocolAttempt {
  import opened Wrappers
  import opened Messages
  import opened Protocol
  import opened ProtocolInvariant
  import opened ProtocolSteps
  import A = Attempt
  import opened Savepoints
  import Sessions
  import opened Meaning

  /** The job runs this declaration. */
  predicate Describes(j: A.Job, decl: Decl) {
    && j.inProgress == decl.inProgress && j.sources == decl.sources
    && (j.target.Some? <==> decl.target.Some?) && (j.target.Some? ==> j.target.value.state == decl.target.value)
    && (j.failed.Some? <==> decl.failedState.Some?) && (j.failed.Some? ==> j.failed.value.state == decl.failedState.value)
  }

  /** The connection reads the state column and the row the machine has. */
  predicate Shows(d: Data, cell: string, s: State, pk: Pk) {
    && pk in s.rows && s.rows[pk].inst in s.db
    && cell in d.cells && d.cells[cell] == s.db[s.rows[pk].inst]
    && d.message == s.rows[pk].message
  }

  /** The side-effects of an action leave its state column alone; those of a
      transition may not matter, for its target is written last. */
  predicate LeavesState(j: A.Job, cells: map<string, string>) {
    j.target.None? && A.WouldSucceed(j, cells) ==>
      j.cell in cells && j.cell in A.Wished(j, cells).1.cells && A.Wished(j, cells).1.cells[j.cell] == cells[j.cell]
  }

  /** The machine's moves for an attempt that ends in report `r`; an escaping
      BaseException is a crash. */
  function MovesFor(r: A.Report, landed: bool): seq<WorkMove> {
    match r
    case Unrestorable => [RestoreGone]
    case RestoreFailed => [RestoreBroken]
    case SupersededReport => [GuardState]
    case Succeeded => [GuardState, WorkMove.Succeed]
    case WillRetry => [GuardState, FailAttempt(false, false)]
    case FailedForGood => [GuardState, FailAttempt(true, landed)]
    case Escaped => []
  }

  /** `a` makes these moves from `s` to `r`. */
  ghost predicate Makes(s: State, a: Actor, moves: seq<WorkMove>, r: State)
    decreases |moves|
  {
    if moves == [] then r == s
    else Present(s) && Enabled(s, Work(a, moves[0])) && Makes(Apply(s, Work(a, moves[0])), a, moves[1..], r)
  }

  /** What the attempt writes on its row, by its report. */
  lemma AttemptAccounts(j: A.Job, cfg: Config, now: int, c: Conn)
    requires Sessions.Idle(c) && !c.data.message.isCompleted
    ensures var (r, d) := A.RunAtomic(j, cfg, now, c);
            d.data.message == match r
              case Unrestorable => c.data.message
              case RestoreFailed => Messages.Write(c.data.message, RestoreFail, cfg, now)
              case SupersededReport => Messages.Write(c.data.message, Supersede, cfg, now)
              case Succeeded => Messages.Write(c.data.message, Op.Succeed, cfg, now)
              case WillRetry => Messages.Write(c.data.message, Fail(false), cfg, now)
              case FailedForGood => Messages.Write(c.data.message, Fail(true), cfg, now)
              case Escaped => c.data.message
  {
    A.AttemptBodyEffect(j, c);
    A.CommitKeepsData(A.Attempted(j, cfg, now, c).1, c.data);
    if j.restoration.Fine? && A.GuardMatches(j, c.data.cells) {
      if !j.decodes {
        A.FailureEffect(j, Ordinary, cfg, now, c);
      } else {
        var (o, d) := RunInSavepoint(A.AttemptBody(j), true, c);
        if o.Raised? && o.e != NotAnException { A.FailureEffect(j, o.e, cfg, now, d); }
      }
    }
  }

  /** A target written last is what the column holds. */
  lemma TargetLands(j: A.Job, cells: map<string, string>)
    requires A.WouldSucceed(j, cells) && j.target.Some?
    ensures var w := A.Wished(j, cells).1.cells; j.cell in w && w[j.cell] == j.target.value.state
  {
    var v := View(cells, false, false);
    var (o, w) := Means(j.effects, v);
    var last := if j.target.value.accepted then Prog.Write(j.cell, j.target.value.state) else RejectedWrite;
    assert A.AttemptBody(j) == Then(j.effects, last);
    assert Means(Then(j.effects, last), v) == if o.Done? then Means(last, w) else (o, w);
    assert Means(last, w) == Put(if j.target.value.accepted then j.cell else "", StateWrite(if j.target.value.accepted then j.target.value.state else "", j.target.value.accepted), w);
  }

  /** What the data of an attempt come to: the whole of its writes, its
      `failed_state`, or nothing. */
  lemma AttemptColumn(j: A.Job, cfg: Config, now: int, c: Conn)
    requires Sessions.Idle(c) && !c.data.message.isCompleted && j.cell in c.data.cells && LeavesState(j, c.data.cells)
    ensures var (r, d) := A.RunAtomic(j, cfg, now, c);
            && j.cell in d.data.cells
            && (r.Succeeded? ==>
                  && d.data.cells == A.Wished(j, c.data.cells).1.cells
                  && d.data.cells[j.cell] == if j.target.Some? then j.target.value.state else c.data.cells[j.cell])
            && (!r.Succeeded? ==>
                  || d.data.cells == c.data.cells
                  || (r.FailedForGood? && j.failed.Some? && d.data.cells == c.data.cells[j.cell := j.failed.value.state]))
  {
    A.AttemptIsAllOrNothing(j, cfg, now, c);
    if A.WouldSucceed(j, c.data.cells) && j.target.Some? { TargetLands(j, c.data.cells); }
  }

  /** For every job and every machine state it runs in: the attempt's transaction
      and the machine's moves end in the same column and the same row, no other
      row is touched, and the moves contain `Succeed` exactly when every write
      of the side-effects is committed with them; otherwise none of them is. */
  lemma AttemptIsMoves(j: A.Job, c: Conn, s: State, a: Actor, pk: Pk)
    requires Inv(s) && PcOf(s, a) == Holding(Attempt, false, pk) && pk in s.rows && Describes(j, s.rows[pk].decl)
    requires Sessions.Idle(c) && Shows(c.data, j.cell, s, pk) && LeavesState(j, c.data.cells)
    requires !A.RunAtomic(j, s.cfg, s.now, c).0.Escaped?
    ensures var (report, d) := A.RunAtomic(j, s.cfg, s.now, c);
            && (report.Succeeded? <==> A.WouldSucceed(j, c.data.cells))
            && (report.Succeeded? ==> d.data.cells == A.Wished(j, c.data.cells).1.cells)
            && (!report.Succeeded? ==>
                  || d.data.cells == c.data.cells
                  || (report.FailedForGood? && j.failed.Some? && d.data.cells == c.data.cells[j.cell := j.failed.value.state]))
            && exists landed, r :: Makes(s, a, MovesFor(report, landed), r) && Ends(s, r, a, pk, d.data, j.cell)
  {
    var (report, d) := A.RunAtomic(j, s.cfg, s.now, c);
    assert HoldsRow(s, a, Attempt, pk);
    AttemptAccounts(j, s.cfg, s.now, c);
    AttemptColumn(j, s.cfg, s.now, c);
    A.AttemptIsAllOrNothing(j, s.cfg, s.now, c);
    GuardsAgree(j, c, s, pk);
    match report
    case Unrestorable => GoneMakes(s, a, pk, d.data, j.cell);
    case RestoreFailed => BrokenMakes(s, a, pk, d.data, j.cell);
    case SupersededReport => SupersededMakes(s, a, pk, d.data, j.cell);
    case Succeeded =>
      var r := SuccessMakes(s, a, pk, d.data, j.cell);
      assert Makes(s, a, MovesFor(report, false), r);
    case WillRetry =>
      var r := FailureMakes(s, a, pk, d.data, j.cell, false, false);
      assert Makes(s, a, MovesFor(report, false), r);
    case FailedForGood =>
      var landed := d.data.cells != c.data.cells;
      var r := FailureMakes(s, a, pk, d.data, j.cell, true, landed);
      assert Makes(s, a, MovesFor(report, landed), r);
    case _ =>
  }

  /** The machine ends where the data do, with every other row as it was. */
  ghost predicate Ends(s: State, r: State, a: Actor, pk: Pk, d: Data, cell: string) {
    && Shows(d, cell, r, pk) && r.rows.Keys == s.rows.Keys && (forall q :: q in s.rows && q != pk ==> r.rows[q] == s.rows[q])
    && (forall i :: i in s.db && i != r.rows[pk].inst ==> i in r.db && r.db[i] == s.db[i])
    && pk !in r.rowLock && !PcOf(r, a).Holding?
  }

  lemma GuardsAgree(j: A.Job, c: Conn, s: State, pk: Pk)
    requires pk in s.rows && Describes(j, s.rows[pk].decl) && Shows(c.data, j.cell, s, pk)
    ensures A.GuardMatches(j, c.data.cells) <==> AtRest(s.rows[pk].decl, s.db[s.rows[pk].inst])
  {}

  lemma OneMove(s: State, a: Actor, m: WorkMove)
    requires Present(s) && Enabled(s, Work(a, m))
    ensures Makes(s, a, [m], Apply(s, Work(a, m)))
  {
    assert [m][1..] == [];
  }

  lemma GoneMakes(s: State, a: Actor, pk: Pk, d: Data, cell: string)
    requires Present(s) && PcOf(s, a) == Holding(Attempt, false, pk) && Shows(d, cell, s, pk)
    ensures exists landed, r :: Makes(s, a, MovesFor(A.Unrestorable, landed), r) && Ends(s, r, a, pk, d, cell)
  {
    OneMove(s, a, RestoreGone);
    assert Makes(s, a, MovesFor(A.Unrestorable, false), Apply(s, Work(a, RestoreGone)));
    assert Ends(s, Apply(s, Work(a, RestoreGone)), a, pk, d, cell);
  }

  lemma SettledEnds(s: State, a: Actor, pk: Pk, op: Op, d: Data, cell: string)
    requires pk in s.rows && pk in s.events && s.rows[pk].inst in s.db
    requires cell in d.cells && d.cells[cell] == s.db[s.rows[pk].inst]
    requires d.message == Messages.Write(s.rows[pk].message, op, s.cfg, s.now)
    ensures Ends(s, Settled(s, a, pk, op), a, pk, d, cell)
  {
    SettledShape(s, a, pk, op);
  }

  lemma BrokenMakes(s: State, a: Actor, pk: Pk, d: Data, cell: string)
    requires Present(s) && PcOf(s, a) == Holding(Attempt, false, pk)
    requires pk in s.rows && cell in d.cells && d.cells[cell] == s.db[s.rows[pk].inst]
    requires d.message == Messages.Write(s.rows[pk].message, RestoreFail, s.cfg, s.now)
    ensures exists landed, r :: Makes(s, a, MovesFor(A.RestoreFailed, landed), r) && Ends(s, r, a, pk, d, cell)
  {
    OneMove(s, a, RestoreBroken);
    SettledEnds(s, a, pk, RestoreFail, d, cell);
    assert Makes(s, a, MovesFor(A.RestoreFailed, false), Apply(s, Work(a, RestoreBroken)));
  }

  lemma SupersededMakes(s: State, a: Actor, pk: Pk, d: Data, cell: string)
    requires Present(s) && PcOf(s, a) == Holding(Attempt, false, pk) && pk in s.rows && !AtRest(s.rows[pk].decl, s.db[s.rows[pk].inst])
    requires cell in d.cells && d.cells[cell] == s.db[s.rows[pk].inst]
    requires d.message == Messages.Write(s.rows[pk].message, Supersede, s.cfg, s.now)
    ensures exists landed, r :: Makes(s, a, MovesFor(A.SupersededReport, landed), r) && Ends(s, r, a, pk, d, cell)
  {
    OneMove(s, a, GuardState);
    SettledEnds(s, a, pk, Supersede, d, cell);
    assert Makes(s, a, MovesFor(A.SupersededReport, false), Apply(s, Work(a, GuardState)));
  }

  /** A passed guard only remembers that it passed. */
  lemma GuardPasses(s: State, a: Actor, pk: Pk)
    requires Present(s) && PcOf(s, a) == Holding(Attempt, false, pk) && pk in s.rows && AtRest(s.rows[pk].decl, s.db[s.rows[pk].inst])
    ensures Enabled(s, Work(a, GuardState)) && Apply(s, Work(a, GuardState)) == Guarded(s, a, pk) && Present(Guarded(s, a, pk))
  {
    var g := Guarded(s, a, pk);
    assert forall b :: b in g.pcs && b != a ==> b in s.pcs && g.pcs[b] == s.pcs[b];
    assert HolderApply(s, a, PcOf(s, a), GuardState) == g;
  }

  function Guarded(s: State, a: Actor, pk: Pk): State {
    At(s, a, Holding(Attempt, true, pk))
  }

  lemma TwoMoves(s: State, a: Actor, m: WorkMove, pk: Pk, r: State)
    requires Present(s) && Enabled(s, Work(a, GuardState)) && Apply(s, Work(a, GuardState)) == Guarded(s, a, pk)
    requires Present(Guarded(s, a, pk)) && Enabled(Guarded(s, a, pk), Work(a, m)) && Apply(Guarded(s, a, pk), Work(a, m)) == r
    ensures Makes(s, a, [GuardState, m], r)
  {
    assert [GuardState, m][1..] == [m];
    OneMove(Guarded(s, a, pk), a, m);
  }

  /** The last write of a guarded attempt. */
  lemma GuardedEnds(s: State, a: Actor, pk: Pk, op: Op, v: Option<string>, d: Data, cell: string)
    requires Present(s) && pk in s.rows && pk in s.events
    requires cell in d.cells && d.cells[cell] == if v.Some? then v.value else s.db[s.rows[pk].inst]
    requires d.message == Messages.Write(s.rows[pk].message, op, s.cfg, s.now)
    ensures Ends(s, SetState(Settled(Guarded(s, a, pk), a, pk, op), s.rows[pk].inst, v), a, pk, d, cell)
  {
    SettledShape(Guarded(s, a, pk), a, pk, op);
  }

  lemma SuccessMoves(s: State, a: Actor, pk: Pk)
    requires Present(s) && Present(Guarded(s, a, pk)) && pk in s.rows
    ensures var g := Guarded(s, a, pk);
            Enabled(g, Work(a, WorkMove.Succeed))
            && Apply(g, Work(a, WorkMove.Succeed)) == SetState(Settled(g, a, pk, Op.Succeed), s.rows[pk].inst, s.rows[pk].decl.target)
  {
    var g := Guarded(s, a, pk);
    assert PcOf(g, a) == Holding(Attempt, true, pk);
    assert HolderApply(g, a, PcOf(g, a), WorkMove.Succeed) == SetState(Settled(g, a, pk, Op.Succeed), s.rows[pk].inst, s.rows[pk].decl.target);
  }

  lemma SuccessMakes(s: State, a: Actor, pk: Pk, d: Data, cell: string) returns (r: State)
    requires Present(s) && PcOf(s, a) == Holding(Attempt, false, pk) && pk in s.rows && AtRest(s.rows[pk].decl, s.db[s.rows[pk].inst])
    requires var decl := s.rows[pk].decl;
             cell in d.cells && d.cells[cell] == if decl.target.Some? then decl.target.value else s.db[s.rows[pk].inst]
    requires d.message == Messages.Write(s.rows[pk].message, Op.Succeed, s.cfg, s.now)
    ensures Makes(s, a, [GuardState, WorkMove.Succeed], r) && Ends(s, r, a, pk, d, cell)
  {
    r := SetState(Settled(Guarded(s, a, pk), a, pk, Op.Succeed), s.rows[pk].inst, s.rows[pk].decl.target);
    GuardPasses(s, a, pk);
    SuccessMoves(s, a, pk);
    TwoMoves(s, a, WorkMove.Succeed, pk, r);
    GuardedEnds(s, a, pk, Op.Succeed, s.rows[pk].decl.target, d, cell);
  }

  lemma FailureMoves(s: State, a: Actor, pk: Pk, permanent: bool, landed: bool)
    requires Present(s) && Present(Guarded(s, a, pk)) && pk in s.rows
    requires landed ==> Messages.Write(s.rows[pk].message, Fail(permanent), s.cfg, s.now).isCompleted
    ensures var g := Guarded(s, a, pk);
            Enabled(g, Work(a, FailAttempt(permanent, landed)))
            && Apply(g, Work(a, FailAttempt(permanent, landed)))
               == SetState(Settled(g, a, pk, Fail(permanent)), s.rows[pk].inst, if landed then s.rows[pk].decl.failedState else None)
  {
    var g := Guarded(s, a, pk);
    assert PcOf(g, a) == Holding(Attempt, true, pk);
    SettledShape(g, a, pk, Fail(permanent));
    assert HolderApply(g, a, PcOf(g, a), FailAttempt(permanent, landed))
           == SetState(Settled(g, a, pk, Fail(permanent)), s.rows[pk].inst, if landed then s.rows[pk].decl.failedState else None);
  }

  lemma FailureMakes(s: State, a: Actor, pk: Pk, d: Data, cell: string, permanent: bool, landed: bool) returns (r: State)
    requires Present(s) && PcOf(s, a) == Holding(Attempt, false, pk) && pk in s.rows && AtRest(s.rows[pk].decl, s.db[s.rows[pk].inst])
    requires d.message == Messages.Write(s.rows[pk].message, Fail(permanent), s.cfg, s.now)
    requires landed ==> permanent && s.rows[pk].decl.failedState.Some?
    requires var row := s.rows[pk];
             cell in d.cells && d.cells[cell] == if landed then row.decl.failedState.value else s.db[row.inst]
    ensures Makes(s, a, [GuardState, FailAttempt(permanent, landed)], r) && Ends(s, r, a, pk, d, cell)
  {
    var v := if landed then s.rows[pk].decl.failedState else None;
    r := SetState(Settled(Guarded(s, a, pk), a, pk, Fail(permanent)), s.rows[pk].inst, v);
    GuardPasses(s, a, pk);
    FailureMoves(s, a, pk, permanent, landed);
    TwoMoves(s, a, FailAttempt(permanent, landed), pk, r);
    GuardedEnds(s, a, pk, Fail(permanent), v, d, cell);
  }
}
