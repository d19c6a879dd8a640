/** The cache lock of one instance and the critical sections it guards, at top
    level: synchronous transitions, failing actions and enqueue, with other
    processes, workers and the lock's own expiry at work between the statements,
    and with writes that can land and still raise. */
module Locking {
  import opened Wrappers

  /** How a call ends: a refusal is a TransitionNotAllowed of some kind, or an
      error out of the gate's own queries; `Escaped` is a BaseException. */
  datatype Exit = Returned | Refused | Failed | Escaped

  /** How `save()` and the refresh after it end: nothing written; written, then an
      exception out of save(), as from a post_save receiver; written, then an
      exception out of the refresh; cut short by a BaseException; or well. */
  datatype Save = Rejected | RaisedAfter | RefreshFailed | Interrupted(landed: bool) | Saved
  {
    predicate Lands() { RaisedAfter? || RefreshFailed? || Saved? || (Interrupted? && landed) }

    /** Only an exception out of save() puts the attribute back. */
    predicate KeepsAttribute() { !Rejected? && !RaisedAfter? }
  }

  /** How the write of `failed_state`, in a transaction of its own, ends: there is
      none to write; nothing of it is left; committed, but a commit hook raised
      after COMMIT, so that it is taken as not written; cut short by a
      BaseException, out of a commit hook if it is committed; or reported. */
  datatype FailedWrite = NotTried | Lost | CommittedThenRaised | CutShort(committed: bool) | Reported
  {
    predicate Lands() { CommittedThenRaised? || Reported? || (CutShort? && committed) }
    predicate KeepsAttribute() { Reported? || CutShort? }
  }

  /** What a transition wrote. */
  datatype Fate = NothingWritten | Target(save: Save) | Failure(write: FailedWrite)
  {
    /** What is left in the column for others to see. */
    function Lasting(target: string, failedState: Option<string>): seq<string> {
      if Target? && save.Lands() then [target]
      else if Failure? && write.Lands() && failedState.Some? then [failedState.value]
      else []
    }

    function Attribute(previous: string, target: string, failedState: Option<string>): string {
      if Target? && save.KeepsAttribute() then target
      else if Failure? && write.KeepsAttribute() && failedState.Some? then failedState.value
      else previous
    }
  }

  /** How the callbacks and the follow-up after the unlock end. Exceptions of the
      callbacks and of the follow-up's own run are contained; those of the
      follow-up's availability check are not, nor is a BaseException. */
  datatype Tail = Quiet | CheckRaised | TailEscaped

  /** How far `_enqueue_atomic` got. `Broken` is an error out of the serialization,
      the insert or the recheck's query; `HookRaised`, a commit hook that raised
      after COMMIT. */
  datatype Stage = NotReached | Broken | Duplicate | SourceMoved | WriteFailed(save: Save) | CommitFailed | HookRaised | Committed
  {
    predicate Commits() { Committed? || HookRaised? }

    /** The attribute is left at the in-progress state by more than a commit: a
        refresh that fails, or a refused COMMIT, does not put it back. */
    predicate KeepsAttribute() {
      Commits() || CommitFailed? || (WriteFailed? && save.KeepsAttribute())
    }
  }

  /** What a caller has established in its critical section. */
  datatype Section = Outside | Within(sawSource: bool, sawNoRow: bool, inserted: bool, rechecked: bool)

  /** The cache key and the columns of one instance. */
  class Shared {
    var entry: Option<nat>
    var issued: nat                // tokens handed out; uuid4 never repeats one
    var persisted: string
    var open: bool                 // an uncompleted row exists
    ghost var misdeleted: bool     // a release removed another acquisition's token

    ghost predicate Valid()
      reads this
    {
      entry.Some? ==> entry.value < issued
    }

    constructor (persisted: string)
      ensures Valid() && entry.None? && this.persisted == persisted && !open && !misdeleted
    {
      this.entry, this.issued, this.persisted, this.open := None, 0, persisted, false;
      this.misdeleted := false;
    }

    /** Whatever everyone else does: the key may expire or be given back, a new
        acquisition may take it, and the columns may move. */
    method Meanwhile()
      requires Valid()
      modifies `entry, `issued, `persisted, `open
      ensures Valid() && issued >= old(issued)
      ensures entry == old(entry) || entry.None? || entry.value >= old(issued)
    {
      var gone, taken: bool := *, *;
      if gone { entry := None; }
      if entry.None? && taken { entry, issued := Some(issued), issued + 1; }
      persisted, open := *, *;
    }
  }

  /** `State`, with the section it is in and the states it has written. Each
      statement demands what must have been established before it. */
  class State {
    const shared: Shared
    var lockToken: Option<nat>
    var attribute: string
    var pending: Option<string>    // written in the open atomic block
    ghost var section: Section
    ghost var written: seq<string> // what this object's writes made visible to others
    ghost var shown: string        // the attribute as the section left it, before any hook

    constructor (shared: Shared)
      requires shared.Valid()
      ensures Valid() && this.shared == shared && lockToken.None? && pending.None? && section.Outside? && written == []
    {
      this.shared, this.lockToken, this.attribute := shared, None, shared.persisted;
      this.pending, this.section, this.written, this.shown := None, Outside, [], shared.persisted;
    }

    /** Tokens in hand were issued. */
    ghost predicate Valid()
      reads this, shared
    {
      shared.Valid() && (lockToken.Some? ==> lockToken.value < shared.issued)
    }

    /** In its section, with a token of its own. */
    ghost predicate Holds()
      reads this, shared
    {
      Valid() && lockToken.Some? && section.Within?
    }

    /** The key does not hold this object's token, and never will again. */
    ghost predicate Released()
      reads this, shared
    {
      Valid() && lockToken.Some? && section.Outside? && shared.entry != lockToken
    }

    /** `cache.add` with a fresh token. */
    method Lock() returns (locked: bool)
      requires Valid() && section.Outside?
      modifies this`lockToken, this`section, shared`entry, shared`issued
      ensures Valid() && locked == old(shared.entry).None?
      ensures locked ==> shared.entry == lockToken && lockToken.Some? && lockToken.value >= old(shared.issued)
      ensures locked ==> section == Within(false, false, false, false)
      ensures !locked ==> shared.entry == old(shared.entry) && lockToken == old(lockToken) && section.Outside?
    {
      var token := shared.issued;
      shared.issued := shared.issued + 1;
      if shared.entry.Some? { return false; }
      shared.entry, lockToken, section := Some(token), Some(token), Within(false, false, false, false);
      return true;
    }

    /** Compare and delete. Without a token of its own it deletes whatever is there. */
    method Unlock()
      requires Valid()
      modifies this`section, this`shown, shared`entry, shared`misdeleted
      ensures Valid() && section.Outside? && shown == attribute
      ensures shared.entry == if lockToken.None? || old(shared.entry) == lockToken then None else old(shared.entry)
      ensures lockToken.Some? ==> shared.misdeleted == old(shared.misdeleted) && Released()
    {
      if lockToken.None? || shared.entry == lockToken {
        shared.misdeleted := shared.misdeleted || (shared.entry.Some? && shared.entry != lockToken);
        shared.entry := None;
      }
      section, shown := Outside, attribute;
    }

    /** `_ensure_db_state_in_sources`, and the recheck once the row is inserted. */
    method PersistedInSources(sources: set<string>) returns (ok: bool)
      requires Holds()
      modifies this`section
      ensures ok <==> shared.persisted in sources
      ensures section == if !ok then old(section)
                         else if old(section.inserted) then old(section).(rechecked := true)
                         else old(section).(sawSource := true)
    {
      ok := shared.persisted in sources;
      if ok {
        section := if section.inserted then section.(rechecked := true) else section.(sawSource := true);
      }
    }

    /** `_background_in_flight`. */
    method BackgroundInFlight() returns (open: bool)
      requires Holds()
      modifies this`section
      ensures open == shared.open && section == old(section).(sawNoRow := !open)
    {
      open := shared.open;
      section := section.(sawNoRow := !open);
    }

    /** May a state be written: past the gate, or with a row inserted and the source rechecked. */
    ghost predicate MayWrite()
      reads this
    {
      section.Within? && (section.sawNoRow || (section.inserted && section.rechecked))
    }

    /** A write the database refused leaves column and attribute as they were. One
        that landed stays, at once or with the open atomic block, even when an
        exception follows; only one out of save() puts the attribute back. */
    method SetState(state: string, save: Save, inBlock: bool) returns (ok: bool)
      requires Holds() && MayWrite()
      modifies this`attribute, this`pending, this`written, shared`persisted
      ensures ok <==> save.Saved?
      ensures attribute == if save.KeepsAttribute() then state else old(attribute)
      ensures pending == if inBlock && save.Lands() then Some(state) else old(pending)
      ensures shared.persisted == if !inBlock && save.Lands() then state else old(shared.persisted)
      ensures written == if !inBlock && save.Lands() then old(written) + [state] else old(written)
    {
      var previous := attribute;
      attribute := state;
      if save.Lands() {
        if inBlock {
          pending := Some(state);
        } else {
          shared.persisted, written := state, written + [state];
        }
      }
      if save.Rejected? || save.RaisedAfter? {
        attribute := previous;
        return false;
      }
      ok := save.Saved?;
    }

    /** The end of an atomic block whose body returned: COMMIT may be refused. */
    method CommitBlock(accepted: bool)
      modifies this`pending, this`written, shared`persisted
      ensures pending.None?
      ensures shared.persisted == if accepted && old(pending).Some? then old(pending).value else old(shared.persisted)
      ensures written == if accepted && old(pending).Some? then old(written) + [old(pending).value] else old(written)
    {
      if accepted && pending.Some? {
        shared.persisted, written := pending.value, written + [pending.value];
      }
      pending := None;
    }

    /** `failed_state` in a transaction of its own. Column and attribute part ways
        in two cases: a commit hook that raises leaves the state in the column and
        the attribute put back, and a BaseException before COMMIT the reverse. */
    method WriteFailedState(state: string) returns (write: FailedWrite)
      requires Holds() && MayWrite() && pending.None?
      modifies this`attribute, this`pending, this`written, shared`persisted
      ensures pending.None? && !write.NotTried?
      ensures attribute == if write.KeepsAttribute() then state else old(attribute)
      ensures shared.persisted == if write.Lands() then state else old(shared.persisted)
      ensures written == if write.Lands() then old(written) + [state] else old(written)
    {
      var previous := attribute;
      var save: Save := *;
      var ok := SetState(state, save, true);
      var accepted, hookRaises, hookEscapes: bool := *, *, *;
      CommitBlock(ok && accepted);
      if save.Interrupted? { return CutShort(false); }
      if ok && accepted {
        if hookEscapes { return CutShort(true); }
        if !hookRaises { return Reported; }
      }
      attribute := previous;
      write := if ok && accepted then CommittedThenRaised else Lost;
    }

    /** Hooks run only once the lock is given back; their exceptions are contained.
        They are handed the instance, and may leave any state on the attribute. */
    method RunHooks() returns (escapes: bool)
      requires Valid() && section.Outside?
      modifies this`attribute, shared`entry, shared`issued, shared`persisted, shared`open
      ensures Valid() && shared.issued >= old(shared.issued)
      ensures shared.entry == old(shared.entry) || shared.entry.None? || shared.entry.value >= old(shared.issued)
    {
      shared.Meanwhile();
      attribute, escapes := *, *;
    }

    /** `NextTransition.execute`: the availability check is bare, the follow-up's
        run, a call of its own on the same instance, is contained. */
    method FollowUp() returns (tail: Tail)
      requires Valid() && section.Outside?
      modifies this`attribute, shared`entry, shared`issued, shared`persisted, shared`open
      ensures Valid() && shared.issued >= old(shared.issued)
      ensures shared.entry == old(shared.entry) || shared.entry.None? || shared.entry.value >= old(shared.issued)
    {
      var checkRaises: bool := *;
      if checkRaises { return CheckRaised; }
      var escapes := RunHooks();
      tail := if escapes then TailEscaped else Quiet;
    }

    // ----- Transition -----

    /** `_release_lock` after a last moment of interference. */
    method LeaveSection()
      requires Holds()
      modifies this`section, this`shown, shared
      ensures Released() && shown == attribute && shared.misdeleted == old(shared.misdeleted)
    {
      shared.Meanwhile();
      Unlock();
    }

    /** `complete_transition`. The target write is bare: once it has landed it
        stays. A BaseException out of it leaves the lock to its TTL. */
    method CompleteTransition(target: string) returns (exit: Exit, save: Save, tail: Tail)
      requires Holds() && section.sawSource && section.sawNoRow
      modifies this, shared
      ensures Valid() && lockToken == old(lockToken) && shared.misdeleted == old(shared.misdeleted)
      ensures pending == old(pending)
      ensures if save.Interrupted? then section.Within? else Released()
      ensures tail.Quiet? || save.Saved?
      ensures exit == if save.Interrupted? || tail.TailEscaped? then Escaped
                      else if save.Saved? && tail.Quiet? then Returned else Failed
      ensures written == if save.Lands() then old(written) + [target] else old(written)
      ensures (if section.Within? then attribute else shown) == if save.KeepsAttribute() then target else old(attribute)
    {
      save, tail := *, Quiet;
      var ok := SetState(target, save, false);
      if save.Interrupted? { return Escaped, save, Quiet; }
      LeaveSection();
      if !ok { return Failed, save, Quiet; }
      var escapes := RunHooks();
      if escapes { return Escaped, save, TailEscaped; }
      tail := FollowUp();
      exit := if tail.Quiet? then Returned else if tail.CheckRaised? then Failed else Escaped;
    }

    /** `fail_transition`: the lock is given back however the write ends. */
    method FailTransition(failedState: Option<string>) returns (write: FailedWrite, tail: Tail)
      requires Holds() && section.sawSource && section.sawNoRow && pending.None?
      modifies this, shared
      ensures Released() && lockToken == old(lockToken) && shared.misdeleted == old(shared.misdeleted) && pending.None?
      ensures write.NotTried? <==> failedState.None?
      ensures tail.Quiet? || (tail.TailEscaped? && !write.CutShort?)
      ensures written == old(written) + Failure(write).Lasting("", failedState)
      ensures shown == Failure(write).Attribute(old(attribute), "", failedState)
    {
      write, tail := NotTried, Quiet;
      if failedState.Some? { write := WriteFailedState(failedState.value); }
      LeaveSection();
      if !write.CutShort? {
        var escapes := RunHooks();
        if escapes { tail := TailEscaped; }
      }
    }

    /** `Transition.change_state`, whatever its hooks and writes come to. A call
        returns exactly when its target was written and read back and its tail
        was quiet; what it wrote is never undone. Every ordinary exit has given
        the lock back, before the hooks, and nobody else's token was removed;
        only a BaseException out of the gate, the side-effects or the target
        write leaves the lock to its TTL. */
    method ChangeState(sources: set<string>, target: string, failedState: Option<string>)
      returns (exit: Exit, locked: bool, fate: Fate, tail: Tail)
      requires Valid() && section.Outside? && pending.None?
      modifies this, shared
      ensures Valid() && pending.None? && shared.misdeleted == old(shared.misdeleted)
      ensures locked == old(shared.entry).None?
      ensures locked ==> lockToken.Some? && lockToken.value >= old(shared.issued)
      ensures locked && section.Outside? ==> Released()
      ensures section.Within? ==> locked && exit.Escaped? && (fate.NothingWritten? || (fate.Target? && fate.save.Interrupted?))
      ensures !locked ==> exit == Refused && lockToken == old(lockToken)
      ensures exit == Returned <==> fate == Target(Saved) && tail.Quiet?
      ensures exit == Refused ==> fate.NothingWritten?
      ensures exit == Escaped <==> section.Within? || tail.TailEscaped? || (fate.Failure? && fate.write.CutShort?)
      ensures !tail.Quiet? ==> fate == Target(Saved) || fate.Failure?
      ensures fate.Failure? ==> (fate.write.NotTried? <==> failedState.None?)
      ensures written == old(written) + fate.Lasting(target, failedState)
      ensures locked ==> (if section.Within? then attribute else shown) == fate.Attribute(old(attribute), target, failedState)
      ensures !locked ==> attribute == old(attribute)
    {
      fate, tail := NothingWritten, Quiet;
      locked := Lock();
      if !locked { return Refused, false, NothingWritten, Quiet; }
      shared.Meanwhile();
      var gateEscapes: bool := *;
      if gateEscapes { return Escaped, true, NothingWritten, Quiet; }
      var admitted := PersistedInSources(sources);
      if admitted {
        shared.Meanwhile();
        var open := BackgroundInFlight();
        admitted := !open;
      }
      var queryRaises: bool := *;
      if !admitted || queryRaises {
        LeaveSection();
        return Refused, true, NothingWritten, Quiet;
      }
      shared.Meanwhile();                                   // the side-effects run
      var escapes, raises: bool := *, *;
      if escapes { return Escaped, true, NothingWritten, Quiet; }
      if raises {
        var write;
        write, tail := FailTransition(failedState);
        fate := Failure(write);
        exit := if write.CutShort? || tail.TailEscaped? then Escaped else Failed;
      } else {
        var save;
        exit, save, tail := CompleteTransition(target);
        fate := Target(save);
      }
    }

    // ----- Action -----

    /** `Action.fail_transition`: its lock covers only the probe and the write,
        which is skipped while the lock is taken, a row is open or the probe fails. */
    method FailAction(failedState: Option<string>) returns (locked: bool, write: FailedWrite, escapes: bool)
      requires Valid() && section.Outside? && pending.None?
      modifies this, shared
      ensures Valid() && section.Outside? && pending.None? && shared.misdeleted == old(shared.misdeleted)
      ensures locked <==> failedState.Some? && old(shared.entry).None?
      ensures locked ==> Released() && lockToken.value >= old(shared.issued)
      ensures !locked ==> lockToken == old(lockToken)
      ensures !write.NotTried? ==> locked
      ensures write.CutShort? ==> escapes
      ensures written == old(written) + Failure(write).Lasting("", failedState)
      ensures locked ==> shown == Failure(write).Attribute(old(attribute), "", failedState)
    {
      locked, write, escapes := false, NotTried, false;
      if failedState.Some? {
        locked := Lock();
        if locked {
          shared.Meanwhile();
          var probes: bool := *;
          escapes := *;
          if !escapes && probes {
            var open := BackgroundInFlight();
            shared.Meanwhile();
            if !open { write := WriteFailedState(failedState.value); }
          }
          LeaveSection();
        }
      }
      if escapes || write.CutShort? { return locked, write, true; }
      escapes := RunHooks();
    }

    // ----- BackgroundTransition -----

    /** The insert into the table: refused while an uncompleted row exists. */
    method CreateRow() returns (created: bool)
      requires Holds() && section.sawSource
      modifies this`section
      ensures created == !shared.open
      ensures section == old(section).(inserted := created || old(section.inserted))
    {
      if shared.open { return false; }
      section := section.(inserted := true);
      created := true;
    }

    /** The row and the in-progress state become visible together, or neither does. */
    method CommitRow(accepted: bool)
      requires Holds() && section.inserted && section.rechecked
      modifies this`pending, this`written, shared`persisted, shared`open
      ensures pending.None?
      ensures shared.open == (accepted || old(shared.open))
      ensures shared.persisted == if accepted && old(pending).Some? then old(pending).value else old(shared.persisted)
      ensures written == if accepted && old(pending).Some? then old(written) + [old(pending).value] else old(written)
    {
      CommitBlock(accepted);
      if accepted { shared.open := true; }
    }

    /** `_enqueue_atomic`: the insert first, then the recheck, then the
        in-progress write; all of it commits or none of it does. A commit hook
        that raises after COMMIT makes it raise with the row committed. */
    method EnqueueAtomic(sources: set<string>, inProgress: Option<string>) returns (exit: Exit, stage: Stage)
      requires Holds() && section.sawSource && !section.inserted && pending.None?
      modifies this`section, this`attribute, this`pending, this`written
      modifies shared`entry, shared`issued, shared`persisted, shared`open
      ensures Holds() && pending.None? && shared.issued >= old(shared.issued)
      ensures exit == Returned <==> stage.Committed?
      ensures exit == Refused <==> stage.Duplicate? || stage.SourceMoved?
      ensures stage.WriteFailed? ==> !stage.save.Saved? && (exit == Escaped <==> stage.save.Interrupted?)
      ensures stage.Commits() ==> section.inserted && section.rechecked && shared.open
      ensures stage.Commits() && inProgress.Some? ==> shared.persisted == inProgress.value
      ensures written == if stage.Commits() && inProgress.Some? then old(written) + [inProgress.value] else old(written)
      ensures attribute == if inProgress.Some? && stage.KeepsAttribute() then inProgress.value else old(attribute)
      ensures !stage.NotReached?
    {
      var serializes, inserts, rereads, escapes: bool := *, *, *, *;
      var raised := if escapes then Escaped else Failed;
      if !serializes { return raised, Broken; }
      shared.Meanwhile();                                   // the insert may wait for another transaction
      if !inserts { return raised, Broken; }
      var created := CreateRow();
      if !created { return Refused, Duplicate; }
      shared.Meanwhile();
      if !rereads { return raised, Broken; }
      var still := PersistedInSources(sources);
      if !still { return Refused, SourceMoved; }
      shared.Meanwhile();
      exit, stage := FinishEnqueue(inProgress);
    }

    /** The in-progress write and COMMIT. */
    method FinishEnqueue(inProgress: Option<string>) returns (exit: Exit, stage: Stage)
      requires Holds() && section.inserted && section.rechecked && pending.None?
      modifies this`attribute, this`pending, this`written
      modifies shared`entry, shared`issued, shared`persisted, shared`open
      ensures Holds() && pending.None? && shared.issued >= old(shared.issued)
      ensures stage.WriteFailed? || stage.CommitFailed? || stage.Commits()
      ensures exit == Returned <==> stage.Committed?
      ensures exit != Refused
      ensures stage.WriteFailed? ==> !stage.save.Saved? && (exit == Escaped <==> stage.save.Interrupted?)
      ensures stage.Commits() ==> shared.open && (inProgress.Some? ==> shared.persisted == inProgress.value)
      ensures written == if stage.Commits() && inProgress.Some? then old(written) + [inProgress.value] else old(written)
      ensures attribute == if inProgress.Some? && stage.KeepsAttribute() then inProgress.value else old(attribute)
    {
      if inProgress.Some? {
        var save: Save := *;
        var ok := SetState(inProgress.value, save, true);
        if !ok {
          CommitBlock(false);
          return if save.Interrupted? then Escaped else Failed, WriteFailed(save);
        }
        shared.Meanwhile();
      }
      var accepted, hookRaises, escapes: bool := *, *, *;
      CommitRow(accepted);
      stage := if !accepted then CommitFailed else if hookRaises then HookRaised else Committed;
      exit := if stage.Committed? then Returned else if escapes then Escaped else Failed;
    }

    /** `BackgroundTransition.change_state`: whatever happens in the section, the
        lock is given back. The in-progress state is written exactly when the row
        commits. A call that returns has committed; one that has committed may
        still raise, out of a commit hook or out of the dispatch. */
    method Enqueue(valid: bool, sources: set<string>, inProgress: Option<string>)
      returns (exit: Exit, locked: bool, stage: Stage, dispatched: bool)
      requires Valid() && section.Outside? && pending.None?
      modifies this, shared
      ensures Valid() && section.Outside? && pending.None? && shared.misdeleted == old(shared.misdeleted)
      ensures locked == (valid && old(shared.entry).None?)
      ensures locked ==> Released() && lockToken.value >= old(shared.issued)
      ensures !locked ==> exit == Refused && lockToken == old(lockToken) && stage.NotReached?
      ensures exit == Returned <==> stage.Committed? && dispatched
      ensures dispatched ==> stage.Committed?
      ensures stage.Commits() ==> exit != Refused
      ensures written == if stage.Commits() && inProgress.Some? then old(written) + [inProgress.value] else old(written)
      ensures attribute == if inProgress.Some? && stage.KeepsAttribute() then inProgress.value else old(attribute)
    {
      locked, stage, dispatched := false, NotReached, false;
      if !valid { return Refused, false, NotReached, false; }
      locked := Lock();
      if !locked { return Refused, false, NotReached, false; }
      shared.Meanwhile();
      exit := Refused;
      var admitted := PersistedInSources(sources);
      var queryRaises, queryEscapes: bool := *, *;
      if queryEscapes {
        exit := Escaped;
      } else if admitted && !queryRaises {
        exit, stage := EnqueueAtomic(sources, inProgress);
      }
      LeaveSection();
      if stage.Committed? {
        shared.Meanwhile();
        var escapes: bool := *;
        dispatched := *;
        if !dispatched { exit := if escapes then Escaped else Failed; }
      }
    }
  }
}
