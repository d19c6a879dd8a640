/** The `TransitionMessage` row: its writers, the claim rule, the retry status
    and the watchdog's rule. Times are milliseconds on one clock. */
module Messages {
  import opened Wrappers

  /** `TRANSITION_MESSAGE_MAX_ERRORS` and `TRANSITION_MESSAGE_RETRY_MINUTES`. */
  datatype Config = Config(maxErrors: nat, retryMs: nat)

  predicate ValidConfig(cfg: Config) { cfg.maxErrors >= 1 }

  const MINUTE := 60_000
  const RETRY_SLACK := 5 * MINUTE

  /** A row's primary key. */
  datatype Pk = Pk(n: nat)

  /** What `last_error_message` says. */
  datatype Note = NoNote | ErrorNote | SupersededNote | UnrestorableNote | CrashedNote

  datatype Status = Retrying | Stranded

  datatype Message = Message(
    isCompleted: bool,
    endedInFailure: bool,
    errorsCount: nat,
    lastErrorDt: Option<int>,
    note: Note,
    startedAt: Option<int>,
    completedAt: Option<int>,
    durationMs: Option<int>,
    timeoutSeconds: Option<nat>,
    created: int,
    modified: int)
  {
    function Stamped(now: int): Message {
      this.(startedAt := Some(now), modified := now)
    }

    function ErrorRecorded(note: Note, now: int): Message {
      this.(errorsCount := errorsCount + 1, lastErrorDt := Some(now), note := note, modified := now)
    }

    function Completed(measure: bool, failed: bool, now: int): Message {
      this.(isCompleted := true,
            completedAt := Some(now),
            endedInFailure := endedInFailure || failed,
            durationMs := if measure && startedAt.Some? then Some(if now < startedAt.value then 0 else now - startedAt.value)
                          else durationMs,
            modified := now)
    }

    function Superseded(now: int): Message {
      this.(lastErrorDt := Some(now), note := SupersededNote, modified := now).Completed(false, false, now)
    }

    function Unrestorable(now: int): Message {
      this.(isCompleted := true, endedInFailure := true, completedAt := Some(now),
            lastErrorDt := Some(now), note := UnrestorableNote, modified := now)
    }

    /** The row's own rule for `_claimable`; the queue filter is the caller's. */
    predicate Claimable(cfg: Config, now: int) {
      && !isCompleted
      && errorsCount < cfg.maxErrors
      && (lastErrorDt.Some? ==> lastErrorDt.value < now - cfg.retryMs)
    }

    predicate InStuckScan(cfg: Config) {
      !isCompleted && errorsCount >= cfg.maxErrors
    }

    predicate Overdue(now: int) {
      startedAt.Some? && timeoutSeconds.Some? && startedAt.value + timeoutSeconds.value * 1000 < now
    }

    /** An error already on record since the current attempt was stamped. */
    predicate ErrorSinceStamp() {
      startedAt.Some? && lastErrorDt.Some? && lastErrorDt.value >= startedAt.value
    }

    /** What the watchdog charges, on the locked row. */
    predicate Chargeable(now: int) {
      !isCompleted && Overdue(now) && !ErrorSinceStamp()
    }

    /** `retry_status` of an uncompleted row; `held` is the row-lock probe. */
    function RetryStatus(cfg: Config, held: bool, now: int): Status {
      if startedAt.Some? && timeoutSeconds.Some?
         && now < startedAt.value + timeoutSeconds.value * 1000 + RETRY_SLACK then Retrying
      else
        var newest := if startedAt.Some? && startedAt.value > modified then startedAt.value else modified;
        var span := cfg.retryMs * (cfg.maxErrors + 1);
        var window := if span > 15 * MINUTE then span else 15 * MINUTE;
        if now - newest > window && !held then Stranded else Retrying
    }
  }

  function NewMessage(timeout: Option<nat>, now: int): Message {
    Message(false, false, 0, None, NoNote, None, None, None, timeout, now, now)
  }

  // ----- everything that ever writes an existing row -----

  datatype Op =
    | Stamp                        // stamp_attempt_started
    | Succeed                      // _handle_success
    | Fail(permanent: bool)        // _handle_failure
    | RestoreFail                  // _handle_restore_failure
    | Supersede                    // the worker's state guard
    | GiveUp                       // _mark_unrestorable_completed
    | Death                        // _record_child_death
    | Charge(superseded: bool)     // abandon_timed_out_attempt
    | Finalize(superseded: bool)   // finalize_stuck_attempt

  predicate Allowed(m: Message, op: Op, cfg: Config, now: int) {
    && !m.isCompleted
    && (op.Charge? ==> m.Chargeable(now))
    && (op.Finalize? ==> m.errorsCount >= cfg.maxErrors)
  }

  function Finalized(m: Message, superseded: bool, now: int): Message {
    if superseded then m.Superseded(now) else m.Completed(false, true, now)
  }

  function Write(m: Message, op: Op, cfg: Config, now: int): Message {
    match op
    case Stamp => m.Stamped(now)
    case Succeed => m.Completed(true, false, now)
    case Fail(permanent) =>
      var e := m.ErrorRecorded(ErrorNote, now);
      if e.errorsCount < cfg.maxErrors && !permanent then e else e.Completed(true, true, now)
    case RestoreFail =>
      var e := m.ErrorRecorded(ErrorNote, now);
      if e.errorsCount < cfg.maxErrors then e else e.Completed(false, true, now)
    case Supersede => m.Superseded(now)
    case GiveUp => m.Unrestorable(now)
    case Death => m.ErrorRecorded(CrashedNote, now)
    case Charge(superseded) =>
      var e := m.ErrorRecorded(ErrorNote, now);
      if e.errorsCount < cfg.maxErrors then e else Finalized(e, superseded, now)
    case Finalize(superseded) => Finalized(m, superseded, now)
  }

  /** One write of the row at a time. */
  datatype Event = Event(op: Op, at: int)

  /** A history of writes, each allowed when it happens, on a clock that does not run backwards. */
  predicate History(m: Message, events: seq<Event>, cfg: Config, now: int)
    decreases |events|
  {
    if events == [] then true
    else
      && now <= events[0].at
      && Allowed(m, events[0].op, cfg, events[0].at)
      && History(Write(m, events[0].op, cfg, events[0].at), events[1..], cfg, events[0].at)
  }

  function After(m: Message, events: seq<Event>, cfg: Config): Message
    decreases |events|
  {
    if events == [] then m else After(Write(m, events[0].op, cfg, events[0].at), events[1..], cfg)
  }

  function End(events: seq<Event>, now: int): int {
    if events == [] then now else events[|events| - 1].at
  }

  predicate Clocked(m: Message, now: int) {
    && m.created <= m.modified <= now
    && (m.startedAt.Some? ==> m.startedAt.value <= m.modified)
    && (m.lastErrorDt.Some? ==> m.lastErrorDt.value <= m.modified)
    && (m.isCompleted <==> m.completedAt.Some?)
    && (m.endedInFailure ==> m.isCompleted)
  }

  predicate WithinBudget(m: Message, cfg: Config) {
    if m.isCompleted then m.errorsCount <= cfg.maxErrors else m.errorsCount < cfg.maxErrors
  }

  lemma WriteKeeps(m: Message, op: Op, cfg: Config, now: int, at: int)
    requires ValidConfig(cfg) && Clocked(m, now) && now <= at && Allowed(m, op, cfg, at)
    ensures var n := Write(m, op, cfg, at);
            && Clocked(n, at) && m.errorsCount <= n.errorsCount <= m.errorsCount + 1
            && (WithinBudget(m, cfg) && !op.Death? ==> WithinBudget(n, cfg))
  {}

  /** What every history keeps; the error budget only while no child death is recorded. */
  lemma {:induction false} HistoryKeeps(m: Message, events: seq<Event>, cfg: Config, now: int)
    requires ValidConfig(cfg) && Clocked(m, now) && History(m, events, cfg, now)
    ensures Clocked(After(m, events, cfg), End(events, now))
    ensures m.isCompleted ==> events == []
    ensures WithinBudget(m, cfg) && (forall i :: 0 <= i < |events| ==> !events[i].op.Death?)
            ==> WithinBudget(After(m, events, cfg), cfg)
    ensures m.errorsCount <= After(m, events, cfg).errorsCount <= m.errorsCount + |events|
    decreases |events|
  {
    if events != [] {
      var e := events[0];
      WriteKeeps(m, e.op, cfg, now, e.at);
      HistoryKeeps(Write(m, e.op, cfg, e.at), events[1..], cfg, e.at);
      assert forall i :: 0 <= i < |events| - 1 ==> events[1..][i] == events[i + 1];
    }
  }

  /** One more allowed write at the end. */
  lemma {:induction false} HistoryExtends(m: Message, events: seq<Event>, e: Event, cfg: Config, now: int)
    requires History(m, events, cfg, now) && Allowed(After(m, events, cfg), e.op, cfg, e.at) && End(events, now) <= e.at
    ensures History(m, events + [e], cfg, now)
    ensures After(m, events + [e], cfg) == Write(After(m, events, cfg), e.op, cfg, e.at)
    ensures End(events + [e], now) == e.at
    decreases |events|
  {
    if events == [] {
      assert [] + [e] == [e];
      assert [e][1..] == [];
    } else {
      assert (events + [e])[1..] == events[1..] + [e];
      HistoryExtends(Write(m, events[0].op, cfg, events[0].at), events[1..], e, cfg, events[0].at);
    }
  }

  /** No dead zone: after any history an uncompleted row either waits in the
      stuck finalizer's scan, or is claimable at every time past its retry wait;
      a row that `retry_status` calls stranded is already one or the other. */
  lemma NoDeadZone(m: Message, events: seq<Event>, cfg: Config, now: int, held: bool)
    requires ValidConfig(cfg) && Clocked(m, now) && History(m, events, cfg, now)
    ensures var r := After(m, events, cfg);
            !r.isCompleted ==>
              && (r.InStuckScan(cfg) || forall t :: t > r.modified + cfg.retryMs ==> r.Claimable(cfg, t))
              && (forall t :: r.RetryStatus(cfg, held, t) == Stranded ==> r.InStuckScan(cfg) || r.Claimable(cfg, t))
  {
    HistoryKeeps(m, events, cfg, now);
    var r := After(m, events, cfg);
    forall t | !r.isCompleted && r.RetryStatus(cfg, held, t) == Stranded
      ensures r.InStuckScan(cfg) || r.Claimable(cfg, t)
    {
      SpanCoversOneWait(cfg);
    }
  }

  lemma SpanCoversOneWait(cfg: Config)
    ensures cfg.retryMs * (cfg.maxErrors + 1) >= cfg.retryMs
  {
    assert cfg.retryMs * (cfg.maxErrors + 1) == cfg.retryMs * cfg.maxErrors + cfg.retryMs;
  }

  // ----- the watchdog -----

  /** Charges recorded against the attempt stamped `s`. */
  function Charges(m: Message, events: seq<Event>, cfg: Config, s: int): nat
    decreases |events|
  {
    if events == [] then 0
    else
      (if events[0].op.Charge? && m.startedAt == Some(s) then 1 else 0)
      + Charges(Write(m, events[0].op, cfg, events[0].at), events[1..], cfg, s)
  }

  /** One attempt is charged at most one timeout over any number of sweeps, and
      none once any error is on record since its stamp. */
  lemma {:induction false} OneChargePerStamp(m: Message, events: seq<Event>, cfg: Config, now: int, s: int)
    requires Clocked(m, now) && History(m, events, cfg, now)
    ensures Charges(m, events, cfg, s) <= 1
    ensures m.startedAt == Some(s) && m.ErrorSinceStamp() ==> Charges(m, events, cfg, s) == 0
    ensures s < now && m.startedAt != Some(s) ==> Charges(m, events, cfg, s) == 0
    decreases |events|
  {
    if events != [] {
      var e := events[0];
      var n := Write(m, e.op, cfg, e.at);
      OneChargePerStamp(n, events[1..], cfg, e.at, s);
      if e.op.Charge? && m.startedAt == Some(s) {
        assert n.startedAt == Some(s) && n.ErrorSinceStamp();
      }
    }
  }
}
