/** The same connection with its fields updated in place, step by step, as
    `commands.py`, `transition.py` and `runner.py` do. Each method is proved to
    compute the function of the same name. */
module Connections {
  import opened Wrappers
  import opened Messages
  import opened Savepoints
  import opened Sessions
  import opened Attempt

  lemma SurvivingNext(hooks: seq<Hook>, i: nat, sid: Sid, kept: seq<Hook>)
    requires i < |hooks|
    ensures kept + Surviving(hooks[i..], sid)
            == (if sid in hooks[i].sids then kept else kept + [hooks[i]]) + Surviving(hooks[i + 1..], sid)
  {
    var head, rest := if sid in hooks[i].sids then [] else [hooks[i]], Surviving(hooks[i + 1..], sid);
    assert hooks[i..][0] == hooks[i] && hooks[i..][1..] == hooks[i + 1..];
    assert Surviving(hooks[i..], sid) == head + rest;
    Associative(kept, head, rest);
    assert kept + [] == kept;
  }

  lemma Associative(xs: seq<Hook>, ys: seq<Hook>, zs: seq<Hook>)
    ensures xs + (ys + zs) == (xs + ys) + zs
  {}

  class Connection {
    var data: Data
    var blocks: seq<Block>
    var needsRollback: bool
    var aborted: bool
    var hooks: seq<Hook>
    var registry: seq<Token>
    var locks: set<Token>
    var nextSid: Sid
    var nextToken: Token

    function Snapshot(): Conn
      reads this
    {
      Conn(data, blocks, needsRollback, aborted, hooks, registry, locks, nextSid, nextToken)
    }

    constructor (d: Data)
      ensures Snapshot() == Conn(d, [], false, false, [], [], {}, 0, 0)
    {
      data, blocks, needsRollback, aborted := d, [], false, false;
      hooks, registry, locks, nextSid, nextToken := [], [], {}, 0, 0;
    }

    method Unlock(t: Token)
      modifies this`locks
      ensures Snapshot() == old(Snapshot()).Release(t)
    {
      locks := locks - {t};
    }

    /** `Atomic.__enter__` inside an open transaction. */
    method Enter() returns (entered: bool)
      modifies this
      ensures entered == old(Snapshot()).Enter().Some?
      ensures Snapshot() == if entered then old(Snapshot()).Enter().value else old(Snapshot())
    {
      if needsRollback {
        blocks := blocks + [Block(None, data)];
      } else if aborted {
        return false;
      } else {
        blocks := blocks + [Block(Some(nextSid), data)];
        nextSid := nextSid + 1;
      }
      entered := true;
    }

    /** `savepoint_rollback`: the hooks registered under it are dropped. */
    method SavepointRollback(b: Block)
      requires b.sid.Some?
      modifies this
      ensures Snapshot() == old(Snapshot()).RolledBackTo(b)
    {
      var kept: seq<Hook> := [];
      for i := 0 to |hooks|
        invariant Snapshot() == old(Snapshot())
        invariant Surviving(hooks, b.sid.value) == kept + Surviving(hooks[i..], b.sid.value)
      {
        SurvivingNext(hooks, i, b.sid.value, kept);
        if b.sid.value !in hooks[i].sids { kept := kept + [hooks[i]]; }
      }
      data, aborted, needsRollback, hooks := b.before, false, false, kept;
    }

    /** `Atomic.__exit__` of an inner block. */
    method Exit(o: Outcome) returns (left: Outcome)
      requires blocks != []
      modifies this
      ensures (left, Snapshot()) == old(Snapshot()).Exit(o)
    {
      var b := blocks[|blocks| - 1];
      blocks := blocks[..|blocks| - 1];
      left := o;
      if o.Done? && !needsRollback {
        if b.sid.Some? && aborted {
          SavepointRollback(b);
          left := Raised(DatabaseError);
        }
      } else if b.sid.None? {
        needsRollback := true;
      } else {
        needsRollback := false;
        SavepointRollback(b);
      }
    }

    /** `transaction.on_commit(state.unlock)`, then `note_deferred_unlock`. */
    method DeferUnlock(t: Token)
      modifies this
      ensures Snapshot() == old(Snapshot()).DeferUnlock(t)
    {
      var open := Snapshot().OpenSids();
      var queued := false;
      for i := 0 to |hooks|
        invariant Snapshot() == old(Snapshot())
        invariant queued <==> exists k :: 0 <= k < i && hooks[k].Clear?
      {
        if hooks[i].Clear? { queued := true; }
      }
      hooks := hooks + [Hook.Unlock(open, t)];
      if !queued {
        hooks := hooks + [Clear(open)];
      }
      registry := registry + [t];
    }

    /** `_release_dropped`. */
    method ReleaseDropped(before: nat)
      requires before <= |registry|
      modifies this
      ensures Snapshot() == old(Snapshot()).ReleaseDropped(before)
    {
      var dropped := registry[before..];
      registry := registry[..before];
      for i := 0 to |dropped|
        invariant Snapshot() == old(Snapshot()).(registry := old(registry)[..before],
                                                 locks := old(locks) - Elements(dropped[..i]))
      {
        assert Elements(dropped[..i + 1]) == Elements(dropped[..i]) + {dropped[i]};
        Unlock(dropped[i]);
      }
      assert dropped[..|dropped|] == dropped;
    }

    method Statement(cell: string, w: StateWrite) returns (o: Outcome)
      modifies this
      ensures (o, Snapshot()) == Savepoints.Statement(cell, w, old(Snapshot()))
    {
      if !needsRollback && !aborted && w.accepted {
        data := data.(cells := data.cells[cell := w.state]);
        o := Done;
      } else {
        aborted := aborted || !needsRollback;
        needsRollback := true;
        o := Raised(DatabaseError);
      }
    }

    /** Consumer code running on this connection. */
    method Run(p: Prog) returns (o: Outcome)
      modifies this
      ensures (o, Snapshot()) == Exec(p, old(Snapshot()))
      decreases p, 2
    {
      match p
      case Skip => o := Done;
      case Write(cell, value) => o := Statement(cell, StateWrite(value, true));
      case RejectedWrite => o := Statement("", StateWrite("", false));
      case FailedQuery =>
        if !needsRollback { aborted := true; }
        o := Raised(DatabaseError);
      case Raise(e) => o := Raised(e);
      case OnCommit(raises) =>
        hooks := hooks + [Consumer(Snapshot().OpenSids(), raises)];
        o := Done;
      case Then(first, second) =>
        o := Run(first);
        if o.Done? { o := Run(second); }
      case Try(body, handler) =>
        o := Run(body);
        if o.Raised? && o.e != NotAnException { o := Run(handler); }
      case Atomic(body) =>
        var entered := Enter();
        if !entered { return Raised(DatabaseError); }
        o := Run(body);
        o := Exit(o);
      case Savepoint(body, requireCommit) => o := RunInSavepoint(body, requireCommit);
      case Callbacks(hooks) => o := RunCallbacks(p, hooks);
      case Drive(_, _, _, _, _, _, _) => o := ChangeState(p);
    }

    /** `_run_in_savepoint`. */
    method RunInSavepoint(body: Prog, requireCommit: bool) returns (o: Outcome)
      modifies this
      ensures (o, Snapshot()) == Savepoints.RunInSavepoint(body, requireCommit, old(Snapshot()))
      decreases body, 3
    {
      var before := |registry|;
      var entered := Enter();
      if !entered { return Raised(DatabaseError); }
      o := Run(body);
      var rolledBack := needsRollback;
      o := Exit(o);
      if o.Raised? {
        ReleaseDropped(before);
      } else if rolledBack {
        ReleaseDropped(before);
        if requireCommit { o := Raised(Ordinary); }
      }
    }

    /** `Callbacks.execute` inside a transaction. */
    method RunCallbacks(ghost whole: Prog, hooks: seq<Prog>) returns (o: Outcome)
      requires forall i :: 0 <= i < |hooks| ==> hooks[i] < whole
      modifies this
      ensures (o, Snapshot()) == Savepoints.RunCallbacks(whole, hooks, old(Snapshot()))
      decreases whole, 0, 0
    {
      for i := 0 to |hooks|
        invariant Savepoints.RunCallbacks(whole, hooks, old(Snapshot()))
                  == Savepoints.RunCallbacks(whole, hooks[i..], Snapshot())
      {
        assert hooks[i..][1..] == hooks[i + 1..];
        o := RunInSavepoint(hooks[i], false);
        if o == Raised(NotAnException) { return; }
      }
      o := Done;
    }

    /** `set_state(failed_state)` in its own savepoint. */
    method WriteFailedState(cell: string, failed: Option<StateWrite>) returns (wrote: bool)
      modifies this
      ensures (wrote, Snapshot()) == Savepoints.WriteFailedState(cell, failed, old(Snapshot()))
    {
      if failed.None? { return false; }
      var before := |registry|;
      var entered := Enter();
      if !entered { return false; }
      var o := Statement(cell, failed.value);
      var rolledBack := needsRollback;
      o := Exit(o);
      if o.Raised? || rolledBack { ReleaseDropped(before); }
      wrote := o.Done? && !rolledBack;
    }

    /** `Transition.change_state`, `complete_transition` and `fail_transition`. */
    method ChangeState(p: Prog) returns (o: Outcome)
      requires p.Drive?
      modifies this
      ensures (o, Snapshot()) == RunTransition(p, old(Snapshot()))
      decreases p, 1
    {
      if needsRollback || aborted { return Raised(DatabaseError); }
      if !p.admitted { return Raised(Ordinary); }
      var t := nextToken;
      locks, nextToken := locks + {t}, nextToken + 1;
      o := Run(p.effects);
      if o == Raised(NotAnException) { return; }
      if o.Done? {
        o := Statement(p.cell, p.target);
        if o.Raised? {
          Unlock(t);
          return;
        }
        DeferUnlock(t);
        o := RunCallbacks(p, p.callbacks);
      } else {
        var wroteState := WriteFailedState(p.cell, p.failed);
        if wroteState { DeferUnlock(t); } else { Unlock(t); }
        var h := RunCallbacks(p, p.failureCallbacks);
        if h == Raised(NotAnException) { o := h; }
      }
    }

    // ----- the outermost block -----

    /** `run_and_clear_commit_hooks`: in order, up to the first that raises. */
    method RunCommitHooks() returns (raised: bool)
      modifies this
      ensures Snapshot() == RunHooks(old(hooks), old(Snapshot()).(hooks := []))
      ensures raised <==> Unrun(old(hooks)) != []
    {
      var current := hooks;
      hooks := [];
      while current != []
        invariant RunHooks(old(hooks), old(Snapshot()).(hooks := [])) == RunHooks(current, Snapshot())
        invariant Unrun(old(hooks)) == Unrun(current)
        decreases |current|
      {
        match current[0] {
          case Unlock(_, t) => Unlock(t);
          case Clear(_) => registry := [];
          case Consumer(_, raises) => if raises { return true; }
        }
        current := current[1..];
      }
      raised := false;
    }

    method HandleFailure(j: Job, e: Exn, cfg: Config, now: int) returns (r: Report)
      modifies this
      ensures (r, Snapshot()) == Attempt.HandleFailure(j, e, cfg, now, old(Snapshot()))
    {
      data := data.(message := Messages.Write(data.message, Fail(e in j.permanent), cfg, now));
      if !data.message.isCompleted { return WillRetry; }
      var _ := WriteFailedState(j.cell, j.failed);
      r := FailedForGood;
    }

    /** `_run_atomic`, from the locked row to the end of its atomic block. A commit
        hook of the consumer's that raises does so after COMMIT. */
    method RunBackgroundTransition(j: Job, cfg: Config, now: int) returns (r: Report, raised: bool)
      modifies this
      ensures (r, Snapshot()) == RunAtomic(j, cfg, now, old(Snapshot()))
      ensures raised <==> !r.Unrestorable? && !r.Escaped? && Unrun(Attempted(j, cfg, now, old(Snapshot())).1.hooks) != []
    {
      var began := data;
      raised := false;
      if j.restoration.Gone? {
        r := Unrestorable;
      } else if j.restoration.Broken? {
        data := data.(message := Messages.Write(data.message, RestoreFail, cfg, now));
        r := RestoreFailed;
      } else if !GuardMatches(j, data.cells) {
        data := data.(message := Messages.Write(data.message, Supersede, cfg, now));
        r := SupersededReport;
      } else if !j.decodes {
        r := HandleFailure(j, Ordinary, cfg, now);
      } else {
        var o := RunInSavepoint(AttemptBody(j), true);
        if o.Done? {
          data := data.(message := Messages.Write(data.message, Succeed, cfg, now));
          r := Succeeded;
        } else if o.e == NotAnException {
          r := Escaped;
        } else {
          r := HandleFailure(j, o.e, cfg, now);
        }
      }
      if r.Unrestorable? || r.Escaped? {
        data, needsRollback, aborted, hooks := began, false, false, [];
      } else {
        if aborted { data := began; }
        aborted := false;
        raised := RunCommitHooks();
      }
    }
  }
}
