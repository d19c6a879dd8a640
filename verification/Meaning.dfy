/** A reference meaning for programs: blocks as nested copies, with no
    savepoint stack, no identifiers, no hooks and no locks. */
module Meaning {
  import opened Wrappers
  import opened Savepoints
  import opened Registry

  /** `poisoned`: a database error was raised since the block opened, caught or not. */
  datatype View = View(cells: map<string, string>, poisoned: bool, aborted: bool)
  {
    predicate Healthy() { !poisoned && !aborted }
    predicate Refuses() { aborted && !poisoned }
  }

  function ViewOf(c: Conn): View {
    View(c.data.cells, c.needsRollback, c.aborted)
  }

  function Put(cell: string, w: StateWrite, v: View): (Outcome, View) {
    if v.Healthy() && w.accepted then (Done, v.(cells := v.cells[cell := w.state]))
    else (Raised(DatabaseError), v.(poisoned := true, aborted := v.aborted || v.Healthy()))
  }

  /** Leaving a block entered at `v` whose body ended as `(o, inner)`: it counts
      as a whole or not at all, unless the transaction is doomed already. */
  function Leave(v: View, o: Outcome, inner: View): (Outcome, View) {
    if v.poisoned then (o, inner)
    else if o.Done? && inner.Refuses() then (Raised(DatabaseError), v)
    else if o.Done? && !inner.poisoned then (Done, inner)
    else (o, v)
  }

  function LeaveSavepoint(v: View, o: Outcome, inner: View, requireCommit: bool): (Outcome, View) {
    var (left, w) := Leave(v, o, inner);
    (if left.Done? && inner.poisoned && requireCommit then Raised(Ordinary) else left, w)
  }

  function Means(p: Prog, v: View): (Outcome, View)
    decreases p, 2
  {
    match p
    case Skip => (Done, v)
    case Write(cell, value) => Put(cell, StateWrite(value, true), v)
    case RejectedWrite => Put("", StateWrite("", false), v)
    case FailedQuery => (Raised(DatabaseError), if v.Healthy() then v.(aborted := true) else v)
    case Raise(e) => (Raised(e), v)
    case OnCommit(_) => (Done, v)
    case Then(first, second) =>
      var (o, w) := Means(first, v);
      if o.Done? then Means(second, w) else (o, w)
    case Try(body, handler) =>
      var (o, w) := Means(body, v);
      if o.Raised? && o.e != NotAnException then Means(handler, w) else (o, w)
    case Atomic(body) =>
      if v.Refuses() then (Raised(DatabaseError), v)
      else
        var (o, w) := Means(body, v);
        Leave(v, o, w)
    case Savepoint(body, requireCommit) => InSavepoint(body, requireCommit, v)
    case Callbacks(hooks) => MeansCallbacks(p, hooks, v)
    case Drive(_, _, _, _, _, _, _) => MeansTransition(p, v)
  }

  function InSavepoint(body: Prog, requireCommit: bool, v: View): (Outcome, View)
    decreases body, 3
  {
    if v.Refuses() then (Raised(DatabaseError), v)
    else
      var (o, w) := Means(body, v);
      LeaveSavepoint(v, o, w, requireCommit)
  }

  function MeansCallbacks(whole: Prog, hooks: seq<Prog>, v: View): (Outcome, View)
    requires forall i :: 0 <= i < |hooks| ==> hooks[i] < whole
    decreases whole, 0, 0, |hooks|
  {
    if hooks == [] then (Done, v)
    else
      var (o, w) := InSavepoint(hooks[0], false, v);
      if o == Raised(NotAnException) then (o, w) else MeansCallbacks(whole, hooks[1..], w)
  }

  function MeansTransition(p: Prog, v: View): (Outcome, View)
    requires p.Drive?
    decreases p, 1
  {
    if !v.Healthy() then (Raised(DatabaseError), v)
    else if !p.admitted then (Raised(Ordinary), v)
    else
      var (o, w) := Means(p.effects, v);
      if o == Raised(NotAnException) then (o, w)
      else if o.Done? then
        var (put, x) := Put(p.cell, p.target, w);
        if put.Raised? then (put, x) else MeansCallbacks(p, p.callbacks, x)
      else
        var x := MeansFailedState(p.cell, p.failed, w).1;
        var (h, y) := MeansCallbacks(p, p.failureCallbacks, x);
        (if h == Raised(NotAnException) then h else o, y)
  }

  function MeansFailedState(cell: string, failed: Option<StateWrite>, v: View): (bool, View) {
    if failed.None? || v.Refuses() then (false, v)
    else
      var (o, w) := Put(cell, failed.value, v);
      var (left, x) := LeaveSavepoint(v, o, w, true);
      (left.Done?, x)
  }

  /** The connection's stack of savepoints computes the reference meaning. */
  ghost predicate Agrees(c: Conn, o: Outcome, d: Conn, m: (Outcome, View)) {
    o == m.0 && ViewOf(d) == m.1 && d.data.message == c.data.message
  }

  lemma LeaveAgrees(c: Conn, o: Outcome, d: Conn)
    requires WellFormed(c) && c.Enter().Some? && d.blocks == c.Enter().value.blocks
    requires c.needsRollback ==> d.needsRollback
    requires d.data.message == c.data.message
    ensures Agrees(c, d.Exit(o).0, d.Exit(o).1, Leave(ViewOf(c), o, ViewOf(d)))
  {
    var b := d.blocks[|d.blocks| - 1];
    assert b == c.Enter().value.blocks[|c.blocks|];
  }

  lemma LeaveSavepointAgrees(c: Conn, o: Outcome, d: Conn, requireCommit: bool)
    requires WellFormed(c) && c.Enter().Some? && Balanced(c.Enter().value, d)
    requires c.needsRollback ==> d.needsRollback
    requires d.data.message == c.data.message
    ensures var (left, x) := d.LeaveSavepoint(o, |c.registry|, requireCommit);
            Agrees(c, left, x, LeaveSavepoint(ViewOf(c), o, ViewOf(d), requireCommit))
  {
    LeaveAgrees(c, o, d);
  }

  lemma {:induction false} ExecMeans(p: Prog, c: Conn)
    requires WellFormed(c)
    ensures Agrees(c, Exec(p, c).0, Exec(p, c).1, Means(p, ViewOf(c)))
    decreases p, 2
  {
    ExecKeeps(p, c, false);
    match p
    case Then(first, second) =>
      ExecMeans(first, c);
      ExecKeeps(first, c, false);
      var (o, d) := Exec(first, c);
      if o.Done? { ExecMeans(second, d); }
    case Try(body, handler) =>
      ExecMeans(body, c);
      ExecKeeps(body, c, false);
      var (o, d) := Exec(body, c);
      if o.Raised? && o.e != NotAnException { ExecMeans(handler, d); }
    case Atomic(body) =>
      if c.Enter().Some? {
        var e := c.Enter().value;
        EnterKeeps(c);
        ExecMeans(body, e);
        ExecKeeps(body, e, false);
        LeaveAgrees(c, Exec(body, e).0, Exec(body, e).1);
      }
    case Savepoint(body, requireCommit) => SavepointMeans(body, requireCommit, c);
    case Callbacks(hooks) => CallbacksMean(p, hooks, c);
    case Drive(_, _, _, _, _, _, _) => TransitionMeans(p, c);
    case _ =>
  }

  lemma SavepointMeans(body: Prog, requireCommit: bool, c: Conn)
    requires WellFormed(c)
    ensures var (o, d) := RunInSavepoint(body, requireCommit, c);
            Agrees(c, o, d, InSavepoint(body, requireCommit, ViewOf(c)))
    decreases body, 3
  {
    if c.Enter().Some? {
      var e := c.Enter().value;
      EnterKeeps(c);
      ExecMeans(body, e);
      ExecKeeps(body, e, false);
      LeaveSavepointAgrees(c, Exec(body, e).0, Exec(body, e).1, requireCommit);
    }
  }

  lemma CallbacksMean(whole: Prog, hooks: seq<Prog>, c: Conn)
    requires WellFormed(c)
    requires forall i :: 0 <= i < |hooks| ==> hooks[i] < whole
    ensures var (o, d) := RunCallbacks(whole, hooks, c);
            Agrees(c, o, d, MeansCallbacks(whole, hooks, ViewOf(c)))
    decreases whole, 0, 0, |hooks|
  {
    if hooks != [] {
      SavepointMeans(hooks[0], false, c);
      SavepointKeeps(hooks[0], false, c, false);
      var (o, d) := RunInSavepoint(hooks[0], false, c);
      if o != Raised(NotAnException) { CallbacksMean(whole, hooks[1..], d); }
    }
  }

  lemma FailedStateMeans(cell: string, failed: Option<StateWrite>, c: Conn)
    requires WellFormed(c)
    ensures var (wrote, d) := WriteFailedState(cell, failed, c);
            var (w, v) := MeansFailedState(cell, failed, ViewOf(c));
            wrote == w && ViewOf(d) == v && d.data.message == c.data.message
  {
    if failed.Some? && c.Enter().Some? {
      var e := c.Enter().value;
      EnterKeeps(c);
      var (o, d) := Statement(cell, failed.value, e);
      LeaveSavepointAgrees(c, o, d, true);
    }
  }

  lemma TransitionMeans(p: Prog, c: Conn)
    requires WellFormed(c) && p.Drive?
    ensures var (o, d) := RunTransition(p, c);
            Agrees(c, o, d, MeansTransition(p, ViewOf(c)))
    decreases p, 1
  {
    if c.Healthy() && p.admitted {
      var l := Locked(c);
      assert WellFormed(l) by { assert l.OpenSids() == c.OpenSids(); }
      ExecMeans(p.effects, l);
      ExecKeeps(p.effects, l, false);
      var (o, d) := Exec(p.effects, l);
      if o.Done? {
        CompleteMeans(p, d, c.nextToken);
      } else if o.e != NotAnException {
        FailMeans(p, d, c.nextToken);
      }
    }
  }

  lemma CompleteMeans(p: Prog, d: Conn, t: Token)
    requires WellFormed(d) && p.Drive? && t < d.nextToken
    ensures var (q, e) := CompleteTransition(p, t, d);
            var (put, x) := Put(p.cell, p.target, ViewOf(d));
            Agrees(d, q, e, if put.Raised? then (put, x) else MeansCallbacks(p, p.callbacks, x))
    decreases p, 0, 1
  {
    var (w, e) := Statement(p.cell, p.target, d);
    KeepsItself(d, w, e, false);
    if w.Done? {
      DeferWellFormed(e, t);
      CallbacksMean(p, p.callbacks, e.DeferUnlock(t));
    }
  }

  lemma FailMeans(p: Prog, d: Conn, t: Token)
    requires WellFormed(d) && p.Drive? && t < d.nextToken
    ensures var f := if WriteFailedState(p.cell, p.failed, d).0 then WriteFailedState(p.cell, p.failed, d).1.DeferUnlock(t)
                     else WriteFailedState(p.cell, p.failed, d).1.Release(t);
            var (h, e) := RunCallbacks(p, p.failureCallbacks, f);
            Agrees(d, h, e, MeansCallbacks(p, p.failureCallbacks, MeansFailedState(p.cell, p.failed, ViewOf(d)).1))
    decreases p, 0, 1
  {
    FailedStateMeans(p.cell, p.failed, d);
    FailedStateKeeps(p.cell, p.failed, d, false);
    var (wrote, e) := WriteFailedState(p.cell, p.failed, d);
    DeferWellFormed(e, t);
    assert WellFormed(e.Release(t)) by { assert e.Release(t).OpenSids() == e.OpenSids(); }
    CallbacksMean(p, p.failureCallbacks, if wrote then e.DeferUnlock(t) else e.Release(t));
  }
}
