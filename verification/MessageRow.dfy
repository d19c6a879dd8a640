/** The row writers as they run: a loaded copy that may be stale, statements that
    name the columns they write, and the runner's endings built from them. Each
    is one write of `Messages`. */
module MessageRow {
  import opened Wrappers
  import opened Messages

  /** The stored row. */
  class Stored {
    var message: Message

    constructor (message: Message)
      ensures this.message == message
    {
      this.message := message;
    }
  }

  /** A `TransitionMessage` object: a stored row and the copy loaded from it. */
  class TransitionMessage {
    const row: Stored
    var copy: Message

    /** Loaded under the row lock, so nobody else writes the row meanwhile. */
    predicate Loaded()
      reads this, row
    {
      copy == row.message
    }

    constructor (row: Stored)
      ensures this.row == row && Loaded()
    {
      this.row := row;
      this.copy := row.message;
    }

    /** The increment is the database's: a stale copy loses nobody else's error,
        and comes out holding the committed count. */
    method RecordError(note: Note, now: int)
      modifies this, row
      ensures row.message == old(row.message).ErrorRecorded(note, now)
      ensures copy.errorsCount == old(row.message.errorsCount) + 1
      ensures old(Loaded()) ==> Loaded()
    {
      copy := copy.(note := note, lastErrorDt := Some(now));
      row.message := row.message.(errorsCount := row.message.errorsCount + 1, note := copy.note,
                                  lastErrorDt := copy.lastErrorDt, modified := now);
      copy := copy.(errorsCount := row.message.errorsCount, modified := row.message.modified);
    }

    /** Writes no error column, and `ended_in_failure` only to set it. */
    method MarkAsCompleted(measureDuration: bool, endedInFailure: bool, now: int)
      modifies this, row
      ensures row.message.isCompleted && row.message.completedAt == Some(now) && row.message.modified == now
      ensures row.message.errorsCount == old(row.message.errorsCount)
      ensures row.message.lastErrorDt == old(row.message.lastErrorDt) && row.message.note == old(row.message.note)
      ensures row.message.endedInFailure == (endedInFailure || old(row.message.endedInFailure))
      ensures measureDuration && row.message.durationMs != old(row.message.durationMs) ==>
                row.message.durationMs.Some? && row.message.durationMs.value >= 0
      ensures old(Loaded()) ==>
                Loaded() && row.message == old(row.message).Completed(measureDuration, endedInFailure, now)
    {
      copy := copy.(isCompleted := true, completedAt := Some(now), modified := now);
      if endedInFailure {
        copy := copy.(endedInFailure := true);
        row.message := row.message.(endedInFailure := true);
      }
      if measureDuration && copy.startedAt.Some? {
        var delta := now - copy.startedAt.value;
        copy := copy.(durationMs := Some(if delta < 0 then 0 else delta));
        row.message := row.message.(durationMs := copy.durationMs);
      }
      row.message := row.message.(isCompleted := true, completedAt := copy.completedAt, modified := now);
    }

    method MarkAsSuperseded(now: int)
      modifies this, row
      ensures old(Loaded()) ==> Loaded() && row.message == old(row.message).Superseded(now)
      ensures row.message.errorsCount == old(row.message.errorsCount)
      ensures row.message.endedInFailure == old(row.message.endedInFailure)
    {
      copy := copy.(note := SupersededNote, lastErrorDt := Some(now), modified := now);
      row.message := row.message.(note := SupersededNote, lastErrorDt := Some(now), modified := now);
      MarkAsCompleted(false, false, now);
    }

    // ----- how an attempt ends, under its row lock -----

    method HandleSuccess(cfg: Config, now: int)
      requires Loaded()
      modifies this, row
      ensures Loaded() && row.message == Messages.Write(old(row.message), Succeed, cfg, now)
    {
      MarkAsCompleted(true, false, now);
    }

    /** Terminal at the error limit or for a permanent failure, whatever the
        fate of the `failed_state` write. */
    method HandleFailure(permanent: bool, cfg: Config, now: int) returns (terminal: bool)
      requires Loaded()
      modifies this, row
      ensures Loaded() && row.message == Messages.Write(old(row.message), Fail(permanent), cfg, now)
      ensures terminal <==> permanent || old(row.message.errorsCount) + 1 >= cfg.maxErrors
      ensures terminal ==> row.message.isCompleted && row.message.endedInFailure
      ensures !terminal && !old(row.message.isCompleted) ==>
                !row.message.isCompleted && !row.message.Claimable(cfg, now)
    {
      RecordError(ErrorNote, now);
      if copy.errorsCount < cfg.maxErrors && !permanent { return false; }
      MarkAsCompleted(true, true, now);
      return true;
    }

    method HandleRestoreFailure(cfg: Config, now: int) returns (terminal: bool)
      requires Loaded()
      modifies this, row
      ensures Loaded() && row.message == Messages.Write(old(row.message), RestoreFail, cfg, now)
      ensures terminal <==> old(row.message.errorsCount) + 1 >= cfg.maxErrors
      ensures terminal ==> row.message.isCompleted && row.message.endedInFailure
    {
      RecordError(ErrorNote, now);
      if copy.errorsCount < cfg.maxErrors { return false; }
      MarkAsCompleted(false, true, now);
      return true;
    }

    // ----- the safety nets, under the row lock -----

    /** `_finalize_terminal_from_watchdog`; `matches` is the state guard, None
        when the transition cannot be restored. */
    method FinalizeTerminal(matches: Option<bool>, now: int)
      requires Loaded()
      modifies this, row
      ensures Loaded() && row.message == Finalized(old(row.message), matches == Some(false), now)
    {
      if matches == Some(false) {
        MarkAsSuperseded(now);
      } else {
        MarkAsCompleted(false, true, now);
      }
    }

    /** Charges the attempt on the locked row if and only if it is overdue and
        nothing was recorded since its stamp. */
    method AbandonTimedOutAttempt(matches: Option<bool>, cfg: Config, now: int) returns (touched: bool)
      requires Loaded() && !copy.isCompleted
      modifies this, row
      ensures Loaded() && (touched <==> old(row.message).Chargeable(now))
      ensures row.message == if touched then Messages.Write(old(row.message), Charge(matches == Some(false)), cfg, now)
                             else old(row.message)
      ensures touched ==> !row.message.Chargeable(now)
    {
      if copy.startedAt.None? || copy.timeoutSeconds.None?
         || copy.startedAt.value + copy.timeoutSeconds.value * 1000 >= now {
        return false;
      }
      if copy.lastErrorDt.Some? && copy.lastErrorDt.value >= copy.startedAt.value { return false; }
      RecordError(ErrorNote, now);
      if copy.errorsCount >= cfg.maxErrors { FinalizeTerminal(matches, now); }
      return true;
    }

    /** The row as locked is uncompleted; the scan's error count is not read again. */
    method FinalizeStuckAttempt(matches: Option<bool>, cfg: Config, now: int)
      requires Loaded() && !copy.isCompleted
      modifies this, row
      ensures Loaded() && row.message == Messages.Write(old(row.message), Finalize(matches == Some(false)), cfg, now)
      ensures row.message.isCompleted
    {
      FinalizeTerminal(matches, now);
    }
  }

  // ----- statements outside any attempt -----

  /** `held` is another attempt's row lock: a loser never writes. */
  method StampAttemptStarted(row: Stored, held: bool, now: int) returns (stamped: bool)
    modifies row
    ensures stamped <==> !held && !old(row.message.isCompleted)
    ensures row.message == if stamped then old(row.message).Stamped(now) else old(row.message)
  {
    if held || row.message.isCompleted { return false; }
    row.message := row.message.(startedAt := Some(now), modified := now);
    return true;
  }

  /** One conditional UPDATE: a completed row never takes the death as an error. */
  method RecordChildDeath(row: Stored, now: int)
    modifies row
    ensures row.message == if old(row.message.isCompleted) then old(row.message)
                           else old(row.message).ErrorRecorded(CrashedNote, now)
  {
    if !row.message.isCompleted {
      row.message := row.message.(errorsCount := row.message.errorsCount + 1, note := CrashedNote,
                                  lastErrorDt := Some(now), modified := now);
    }
  }

  method MarkUnrestorableCompleted(row: Stored, now: int)
    modifies row
    ensures row.message == if old(row.message.isCompleted) then old(row.message)
                           else old(row.message).Unrestorable(now)
  {
    if !row.message.isCompleted {
      row.message := row.message.(isCompleted := true, endedInFailure := true, completedAt := Some(now),
                                  note := UnrestorableNote, lastErrorDt := Some(now), modified := now);
    }
  }
}
