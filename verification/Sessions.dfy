/** Whole transactions: what commits, what is released, what the registry keeps. */
module Sessions {
  import opened Savepoints
  import opened Registry

  function RunHook(h: Hook, c: Conn): Conn {
    match h
    case Unlock(_, t) => c.Release(t)
    case Clear(_) => c.(registry := [])
    case Consumer(_, _) => c
  }

  /** Its exception leaves the loop, and the hooks after it are dropped. */
  predicate Stops(h: Hook) { h.Consumer? && h.raises }

  /** `run_and_clear_commit_hooks`. */
  function RunHooks(hooks: seq<Hook>, c: Conn): Conn {
    if hooks == [] || Stops(hooks[0]) then c else RunHooks(hooks[1..], RunHook(hooks[0], c))
  }

  /** The hooks ahead of the first one that raises. */
  function Ran(hooks: seq<Hook>): seq<Hook> {
    if hooks == [] || Stops(hooks[0]) then [] else [hooks[0]] + Ran(hooks[1..])
  }

  /** The first hook that raises, and all behind it. */
  function Unrun(hooks: seq<Hook>): seq<Hook> {
    if hooks == [] || Stops(hooks[0]) then hooks else Unrun(hooks[1..])
  }

  /** The outermost block commits. PostgreSQL answers COMMIT of an aborted
      transaction with a rollback and no error, so the hooks still run. */
  function Commit(c: Conn, began: Data): Conn {
    RunHooks(c.hooks, c.(data := if c.aborted then began else c.data, aborted := false, hooks := []))
  }

  function Rollback(c: Conn, began: Data): Conn {
    c.(data := began, needsRollback := false, aborted := false, hooks := [])
  }

  /** A connection between transactions. */
  ghost predicate Idle(c: Conn) {
    WellFormed(c) && c.Healthy() && c.blocks == [] && c.hooks == []
  }

  predicate Commits(o: Outcome, c: Conn) { o.Done? && !c.needsRollback }

  /** One outermost atomic block around `p`. */
  function Session(p: Prog, c: Conn): Conn {
    var (o, d) := Exec(p, c);
    if Commits(o, d) then Commit(d, c.data) else Rollback(d, c.data)
  }

  lemma {:induction false} RunHooksEffect(hooks: seq<Hook>, c: Conn)
    ensures var d := RunHooks(hooks, c);
            && d == c.(locks := d.locks, registry := d.registry)
            && d.locks == c.locks - Elements(Tokens(Ran(hooks)))
            && d.registry == if HasClear(Ran(hooks)) then [] else c.registry
  {
    if hooks != [] && !Stops(hooks[0]) {
      RunHooksEffect(hooks[1..], RunHook(hooks[0], c));
      HasClearCons(Ran(hooks));
      assert Ran(hooks)[1..] == Ran(hooks[1..]);
    }
  }

  lemma {:induction false} RanSplits(hooks: seq<Hook>)
    ensures Ran(hooks) + Unrun(hooks) == hooks
    ensures Unrun(hooks) != [] ==> Stops(Unrun(hooks)[0])
    ensures forall i :: 0 <= i < |Ran(hooks)| ==> !Stops(Ran(hooks)[i])
  {
    if hooks != [] && !Stops(hooks[0]) {
      RanSplits(hooks[1..]);
      assert [hooks[0]] + hooks[1..] == hooks;
    }
  }

  lemma HasClearCons(hooks: seq<Hook>)
    requires hooks != []
    ensures HasClear(hooks) <==> hooks[0].Clear? || HasClear(hooks[1..])
  {
    assert forall i :: 0 <= i < |hooks| - 1 ==> hooks[1..][i] == hooks[i + 1];
    if HasClear(hooks) {
      var i :| 0 <= i < |hooks| && hooks[i].Clear?;
      assert i == 0 || hooks[1..][i - 1] == hooks[i];
    }
  }

  /** A savepoint of the engine that rolls back leaves the data, the queue, the
      registry and the locks as they were: it releases exactly the locks whose
      unlocks it dropped. One that commits keeps everything its body left. */
  lemma SavepointIsAllOrNothing(body: Prog, requireCommit: bool, c: Conn)
    requires WellFormed(c) && c.Healthy()
    ensures var (o, d) := RunInSavepoint(body, requireCommit, c);
            var (q, inner) := Exec(body, c.Enter().value);
            var committed := q.Done? && inner.Healthy();
            && d.Healthy()
            && (committed ==> o.Done? && d == inner.(blocks := c.blocks))
            && (!committed ==>
                  && d.data == c.data && d.hooks == c.hooks && d.registry == c.registry
                  && (requireCommit ==> o.Raised?)
                  && (o == Raised(NotAnException) <==> q == Raised(NotAnException))
                  && (o != Raised(NotAnException) ==> d.locks == c.locks))
  {
    var (q, inner) := Exec(body, c.Enter().value);
    if q.Done? && inner.Healthy() {
      SavepointCommits(body, requireCommit, c);
    } else {
      SavepointRollsBack(body, requireCommit, c);
    }
  }

  lemma SavepointCommits(body: Prog, requireCommit: bool, c: Conn)
    requires WellFormed(c) && c.Healthy()
    requires var (q, inner) := Exec(body, c.Enter().value); q.Done? && inner.Healthy()
    ensures var (o, d) := RunInSavepoint(body, requireCommit, c);
            o.Done? && d == Exec(body, c.Enter().value).1.(blocks := c.blocks)
  {
    var e := c.Enter().value;
    var inner := Exec(body, e).1;
    assert e.blocks[..|c.blocks|] == c.blocks;
  }

  lemma SavepointRollsBack(body: Prog, requireCommit: bool, c: Conn)
    requires WellFormed(c) && c.Healthy()
    requires var (q, inner) := Exec(body, c.Enter().value); !(q.Done? && inner.Healthy())
    ensures var (o, d) := RunInSavepoint(body, requireCommit, c);
            var q := Exec(body, c.Enter().value).0;
            && d.Healthy() && d.data == c.data && d.hooks == c.hooks && d.registry == c.registry
            && (requireCommit ==> o.Raised?)
            && (o == Raised(NotAnException) <==> q == Raised(NotAnException))
            && (o != Raised(NotAnException) ==> d.locks == c.locks)
  {
    var e := c.Enter().value;
    EnterKeeps(c);
    ExecKeeps(body, e, false);
    var (q, inner) := Exec(body, e);
    assert inner.blocks == c.blocks + [e.blocks[|c.blocks|]];
    assert inner.registry[..|c.registry|] == c.registry;
    RolledBackQueue(c, inner);
    SavepointKeeps(body, requireCommit, c, false);
    var (o, d) := RunInSavepoint(body, requireCommit, c);
    assert d.registry == c.registry;
    assert Added(c, d) == [] && Elements(Added(c, d)) == {};
  }

  /** A transaction that commits leaves held exactly the locks whose unlocks stand
      behind a commit hook that raises, and empties the registry exactly when a
      clear stands ahead of it. So it gives back every lock taken in it if and
      only if no unlock stands behind such a hook, and then the registry, if it
      grew, is left empty, whatever stale entries earlier rollbacks left in it. */
  lemma CommitReleasesWhatItReaches(p: Prog, c: Conn)
    requires Idle(c) && EngineBlocksOnly(p)
    requires Commits(Exec(p, c).0, Exec(p, c).1)
    ensures var (d, after) := (Exec(p, c).1, Session(p, c));
            && Idle(after)
            && after.locks == c.locks + Elements(Tokens(Unrun(d.hooks)))
            && (after.locks == c.locks <==> Tokens(Unrun(d.hooks)) == [])
            && after.registry == (if HasClear(Ran(d.hooks)) then [] else d.registry)
            && (Tokens(Unrun(d.hooks)) == [] && d.registry != c.registry ==> after.registry == [])
  {
    ExecKeeps(p, c, true);
    CommitReaches(c, Exec(p, c).1);
  }

  lemma CommitReaches(c: Conn, d: Conn)
    requires Idle(c) && Keeps(c, Done, d, true) && !d.needsRollback
    ensures var after := Commit(d, c.data);
            && Idle(after)
            && after.locks == c.locks + Elements(Tokens(Unrun(d.hooks)))
            && (after.locks == c.locks <==> Tokens(Unrun(d.hooks)) == [])
            && after.registry == (if HasClear(Ran(d.hooks)) then [] else d.registry)
            && (Tokens(Unrun(d.hooks)) == [] && d.registry != c.registry ==> after.registry == [])
  {
    CommitEffect(d, c.data);
    CommitIsIdle(d, c.data);
    QueueSplits(c, d);
    if Tokens(Ran(d.hooks)) != [] { RanHasClear(d); }
  }

  lemma CommitIsIdle(c: Conn, began: Data)
    requires WellFormed(c) && c.blocks == [] && !c.needsRollback
    ensures Idle(Commit(c, began))
  {
    CommitEffect(c, began);
  }

  lemma CommitEffect(c: Conn, began: Data)
    ensures var d := Commit(c, began);
            && d == c.(data := d.data, aborted := false, hooks := [], locks := d.locks, registry := d.registry)
            && (!c.aborted ==> d.data == c.data)
            && d.locks == c.locks - Elements(Tokens(Ran(c.hooks)))
            && d.registry == if HasClear(Ran(c.hooks)) then [] else c.registry
  {
    RunHooksEffect(c.hooks, c.(data := if c.aborted then began else c.data, aborted := false, hooks := []));
  }

  /** The locks of the queue's unlocks: those ahead of the first raising hook and
      those behind it have none in common, and none was held before. */
  lemma QueueSplits(c: Conn, d: Conn)
    requires WellFormed(c) && c.hooks == [] && Keeps(c, Done, d, true)
    ensures var (ran, unrun) := (Tokens(Ran(d.hooks)), Tokens(Unrun(d.hooks)));
            && Added(c, d) == ran + unrun
            && (d.registry == c.registry <==> ran + unrun == [])
            && d.locks - Elements(ran) == c.locks + Elements(unrun)
            && (c.locks + Elements(unrun) == c.locks <==> unrun == [])
  {
    RanSplits(d.hooks);
    TokensAppend(Ran(d.hooks), Unrun(d.hooks));
    assert NewHooks(c, d) == d.hooks;
    assert d.registry == c.registry + Added(c, d);
    Unreleased(c.locks, Tokens(Ran(d.hooks)), Tokens(Unrun(d.hooks)));
  }

  lemma Unreleased(held: set<Token>, ran: seq<Token>, unrun: seq<Token>)
    requires Unrepeated(ran + unrun) && forall t :: t in ran + unrun ==> t !in held
    ensures held + Elements(ran + unrun) - Elements(ran) == held + Elements(unrun)
    ensures held + Elements(unrun) == held <==> unrun == []
  {
    forall i, j | 0 <= i < |ran| && 0 <= j < |unrun| ensures ran[i] != unrun[j] {
      assert (ran + unrun)[i] == ran[i] && (ran + unrun)[|ran| + j] == unrun[j];
    }
    assert forall t :: t in unrun ==> t in ran + unrun;
    if unrun != [] { assert unrun[0] in Elements(unrun) && unrun[0] !in held; }
  }

  lemma {:induction false} NoUnlocksNoTokens(hooks: seq<Hook>)
    requires forall i :: 0 <= i < |hooks| ==> !hooks[i].Unlock?
    ensures Tokens(hooks) == []
  {
    if hooks != [] { NoUnlocksNoTokens(hooks[1..]); }
  }

  /** An unlock that runs has a clear that runs with it. */
  lemma RanHasClear(c: Conn)
    requires Covered(c) && Tokens(Ran(c.hooks)) != []
    ensures HasClear(Ran(c.hooks))
  {
    var ran := Ran(c.hooks);
    RanSplits(c.hooks);
    if forall i :: 0 <= i < |ran| ==> !ran[i].Unlock? { NoUnlocksNoTokens(ran); }
    var i :| 0 <= i < |ran| && ran[i].Unlock?;
    assert c.hooks[i] == ran[i];
    if |ran| < |c.hooks| { assert c.hooks[|ran|] == Unrun(c.hooks)[0]; }
    var j :| 0 <= j < |c.hooks| && Covers(c, j, i);
    assert ran[j] == c.hooks[j];
  }

  /** With the consumer's own atomic blocks as well: a commit releases exactly the
      unlocks ahead of the first raising hook, and empties the registry exactly
      when a clear is among them, which it is whenever an unlock is. */
  lemma RegistryHeals(p: Prog, c: Conn)
    requires Idle(c) && Commits(Exec(p, c).0, Exec(p, c).1)
    ensures var (d, after) := (Exec(p, c).1, Session(p, c));
            && after.locks == c.locks + Elements(Added(c, d)) - Elements(Tokens(Ran(d.hooks)))
            && after.registry == (if HasClear(Ran(d.hooks)) then [] else d.registry)
            && (Tokens(Ran(d.hooks)) != [] ==> after.registry == [])
            && (Unrun(d.hooks) == [] && Tokens(d.hooks) != [] ==> after.registry == [])
  {
    var (o, d) := Exec(p, c);
    ExecKeeps(p, c, false);
    CommitEffect(d, c.data);
    RanSplits(d.hooks);
    if Tokens(Ran(d.hooks)) != [] { RanHasClear(d); }
    if Unrun(d.hooks) == [] { assert Ran(d.hooks) == d.hooks; }
  }

  /** A transition with nothing but its target to write. */
  predicate JustWrites(p: Prog) {
    p.Drive? && p.admitted && p.effects.Skip? && p.target.accepted && p.callbacks == []
  }

  /** The order decides. A consumer's hook that raises, queued before a transition
      of the same transaction, leaves the committed transition's lock held and
      its registry entry behind; queued after it, it leaves neither. */
  lemma HookAheadKeepsTheLock(drive: Prog, c: Conn)
    requires Idle(c) && JustWrites(drive)
    ensures var ahead := Session(Then(OnCommit(true), drive), c);
            var behind := Session(Then(drive, OnCommit(true)), c);
            && ahead.data.cells == c.data.cells[drive.cell := drive.target.state] && behind.data.cells == ahead.data.cells
            && ahead.locks == c.locks + {c.nextToken} && ahead.registry == c.registry + [c.nextToken]
            && behind.locks == c.locks && behind.registry == []
  {
    HookAhead(drive, c);
    HookBehind(drive, c);
  }

  lemma HookAhead(drive: Prog, c: Conn)
    requires Idle(c) && JustWrites(drive)
    ensures var after := Session(Then(OnCommit(true), drive), c);
            && after.data.cells == c.data.cells[drive.cell := drive.target.state]
            && after.locks == c.locks + {c.nextToken} && after.registry == c.registry + [c.nextToken]
  {
    var queued := c.QueueConsumer(true);
    DriveRuns(drive, queued);
    assert Exec(OnCommit(true), c) == (Done, queued);
    var d := Landed(drive, queued).DeferUnlock(c.nextToken);
    assert Exec(Then(OnCommit(true), drive), c) == (Done, d);
    assert Stops(d.hooks[0]);
  }

  lemma HookBehind(drive: Prog, c: Conn)
    requires Idle(c) && JustWrites(drive)
    ensures var after := Session(Then(drive, OnCommit(true)), c);
            && after.data.cells == c.data.cells[drive.cell := drive.target.state]
            && after.locks == c.locks && after.registry == []
  {
    var t := c.nextToken;
    DriveRuns(drive, c);
    assert c.OpenSids() == {};
    var d := Landed(drive, c).DeferUnlock(t);
    assert Exec(OnCommit(true), d) == (Done, d.QueueConsumer(true));
    assert Exec(Then(drive, OnCommit(true)), c) == (Done, d.QueueConsumer(true));
    assert d.QueueConsumer(true).hooks == [Unlock({}, t), Clear({}), Consumer({}, true)];
    UnlockThenClear(t, d.(hooks := []));
    assert t !in c.locks;
  }

  lemma UnlockThenClear(t: Token, c: Conn)
    ensures RunHooks([Unlock({}, t), Clear({}), Consumer({}, true)], c) == c.Release(t).(registry := [])
  {
    var hooks := [Unlock({}, t), Clear({}), Consumer({}, true)];
    var after := c.Release(t).(registry := []);
    assert hooks[1..] == [Clear({}), Consumer({}, true)] && hooks[1..][1..] == [Consumer({}, true)];
    assert RunHooks(hooks[1..][1..], after) == after;
    assert RunHooks(hooks[1..], c.Release(t)) == after;
  }

  function Landed(p: Prog, c: Conn): Conn
    requires p.Drive?
  {
    Locked(c).(data := c.data.(cells := c.data.cells[p.cell := p.target.state]))
  }

  lemma DriveRuns(p: Prog, c: Conn)
    requires c.Healthy() && JustWrites(p)
    ensures Exec(p, c) == (Done, Landed(p, c).DeferUnlock(c.nextToken))
  {
    DriveMoves(p, c);
    assert Exec(p, c) == RunTransition(p, c);
  }

  lemma DriveMoves(p: Prog, c: Conn)
    requires c.Healthy() && JustWrites(p)
    ensures RunTransition(p, c) == (Done, Landed(p, c).DeferUnlock(c.nextToken))
  {
    assert Exec(p.effects, Locked(c)) == (Done, Locked(c));
    DriveCompletes(p, c);
  }

  lemma DriveCompletes(p: Prog, c: Conn)
    requires c.Healthy() && JustWrites(p)
    ensures CompleteTransition(p, c.nextToken, Locked(c)) == (Done, Landed(p, c).DeferUnlock(c.nextToken))
  {
    var queued := Landed(p, c).DeferUnlock(c.nextToken);
    assert Statement(p.cell, p.target, Locked(c)) == (Done, Landed(p, c));
    assert RunCallbacks(p, p.callbacks, queued) == (Done, queued);
  }

  /** A transaction that rolls back as a whole keeps exactly the locks whose
      unlocks it dropped; they are left to their TTL. */
  lemma RollbackLeavesQueuedLocks(p: Prog, c: Conn)
    requires Idle(c) && EngineBlocksOnly(p)
    requires !Commits(Exec(p, c).0, Exec(p, c).1) && Exec(p, c).0 != Raised(NotAnException)
    ensures Session(p, c).data == c.data
    ensures Session(p, c).locks == c.locks + Elements(Tokens(Exec(p, c).1.hooks))
  {
    var d := Exec(p, c).1;
    ExecKeeps(p, c, true);
    assert NewHooks(c, d) == d.hooks;
  }
}
