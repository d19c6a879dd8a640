/** One worker attempt: `_run_atomic` and its helpers, from the locked row to
    the outermost commit. */
module Attempt {
  import opened Wrappers
  import opened Messages
  import opened Savepoints
  import opened Registry
  import opened Sessions
  import opened Meaning

  /** `_restore`: done, permanently impossible, or broken this time. */
  datatype Restoration = Fine | Gone | Broken

  datatype Job = Job(
    restoration: Restoration,
    decodes: bool,                  // the saved kwargs decode
    cell: string,                   // the instance's state column
    inProgress: Option<string>,
    sources: set<string>,
    effects: Prog,
    target: Option<StateWrite>,     // None for a BackgroundAction
    failed: Option<StateWrite>,
    permanent: set<Exn>)            // PermanentFailure and no_retry_on

  datatype Report =
    | Unrestorable       // _StopRetry: the block rolled back
    | RestoreFailed
    | SupersededReport
    | Succeeded
    | WillRetry
    | FailedForGood
    | Escaped            // a BaseException: the block rolled back

  /** `_state_guard_matches`. */
  predicate GuardMatches(j: Job, cells: map<string, string>) {
    && j.cell in cells
    && if j.inProgress.Some? then cells[j.cell] == j.inProgress.value else cells[j.cell] in j.sources
  }

  /** The side-effects, then the target write: one program, one savepoint. */
  function AttemptBody(j: Job): Prog {
    Then(j.effects,
         if j.target.None? then Skip
         else if j.target.value.accepted then Write(j.cell, j.target.value.state)
         else RejectedWrite)
  }

  function Noted(c: Conn, op: Op, cfg: Config, now: int): Conn {
    c.(data := c.data.(message := Messages.Write(c.data.message, op, cfg, now)))
  }

  /** `_handle_failure`. */
  function HandleFailure(j: Job, e: Exn, cfg: Config, now: int, c: Conn): (Report, Conn) {
    var d := Noted(c, Fail(e in j.permanent), cfg, now);
    if !d.data.message.isCompleted then (WillRetry, d)
    else (FailedForGood, WriteFailedState(j.cell, j.failed, d).1)
  }

  /** The body of the outermost block. */
  function Attempted(j: Job, cfg: Config, now: int, c: Conn): (Report, Conn) {
    if j.restoration.Gone? then (Unrestorable, c)
    else if j.restoration.Broken? then (RestoreFailed, Noted(c, RestoreFail, cfg, now))
    else if !GuardMatches(j, c.data.cells) then (SupersededReport, Noted(c, Supersede, cfg, now))
    else if !j.decodes then HandleFailure(j, Ordinary, cfg, now, c)
    else
      var (o, d) := RunInSavepoint(AttemptBody(j), true, c);
      if o.Done? then (Succeeded, Noted(d, Succeed, cfg, now))
      else if o.e == NotAnException then (Escaped, d)
      else HandleFailure(j, o.e, cfg, now, d)
  }

  /** The whole attempt, with its commit or rollback. */
  function RunAtomic(j: Job, cfg: Config, now: int, c: Conn): (Report, Conn) {
    var (r, d) := Attempted(j, cfg, now, c);
    (r, if r.Unrestorable? || r.Escaped? then Rollback(d, c.data) else Commit(d, c.data))
  }

  /** The side-effects and the target write, had they all their way. */
  function Wished(j: Job, cells: map<string, string>): (Outcome, View) {
    Means(AttemptBody(j), View(cells, false, false))
  }

  /** The attempt can run and nothing in it fails, not even silently. */
  predicate WouldSucceed(j: Job, cells: map<string, string>) {
    && j.restoration.Fine? && GuardMatches(j, cells) && j.decodes
    && Wished(j, cells).0.Done? && Wished(j, cells).1.Healthy()
  }

  /** The row records a success exactly when every write of the attempt is
      committed; otherwise none of them is, and the row records exactly one
      error if the attempt was charged at all. */
  lemma AttemptIsAllOrNothing(j: Job, cfg: Config, now: int, c: Conn)
    requires Idle(c) && !c.data.message.isCompleted
    ensures var (r, d) := RunAtomic(j, cfg, now, c);
            var row := c.data.message;
            && (r.Succeeded? <==> WouldSucceed(j, c.data.cells))
            && (r.Succeeded? ==>
                  d.data == Data(Wished(j, c.data.cells).1.cells, row.Completed(true, false, now)))
            && (!r.Succeeded? ==>
                  || d.data.cells == c.data.cells
                  || (r.FailedForGood? && j.failed.Some? && d.data.cells == c.data.cells[j.cell := j.failed.value.state]))
            && d.data.message.errorsCount - row.errorsCount ==
               (if r.RestoreFailed? || r.WillRetry? || r.FailedForGood? then 1 else 0)
            && (r.Unrestorable? || r.Escaped? ==> d.data.message == row)
            && (r.WillRetry? ==> !d.data.message.isCompleted)
            && (r.FailedForGood? ==> d.data.message.isCompleted && d.data.message.endedInFailure)
            && (r.SupersededReport? <==> j.restoration.Fine? && !GuardMatches(j, c.data.cells))
  {
    AttemptBodyEffect(j, c);
    CommitKeepsData(Attempted(j, cfg, now, c).1, c.data);
    if j.restoration.Fine? && GuardMatches(j, c.data.cells) {
      if !j.decodes {
        FailureEffect(j, Ordinary, cfg, now, c);
      } else {
        var (o, d) := RunInSavepoint(AttemptBody(j), true, c);
        if o.Raised? && o.e != NotAnException { FailureEffect(j, o.e, cfg, now, d); }
      }
    }
  }

  lemma CommitKeepsData(c: Conn, began: Data)
    ensures !c.aborted ==> Commit(c, began).data == c.data
  {
    CommitEffect(c, began);
  }

  lemma AttemptBodyEffect(j: Job, c: Conn)
    requires Idle(c)
    ensures var (o, d) := RunInSavepoint(AttemptBody(j), true, c);
            var w := Wished(j, c.data.cells);
            && WellFormed(d) && d.Healthy()
            && d.data.message == c.data.message
            && (o.Done? <==> w.0.Done? && w.1.Healthy())
            && d.data.cells == if o.Done? then w.1.cells else c.data.cells
  {
    var e := c.Enter().value;
    EnterKeeps(c);
    SavepointIsAllOrNothing(AttemptBody(j), true, c);
    SavepointKeeps(AttemptBody(j), true, c, false);
    ExecMeans(AttemptBody(j), e);
    SavepointMeans(AttemptBody(j), true, c);
  }

  lemma FailureEffect(j: Job, e: Exn, cfg: Config, now: int, c: Conn)
    requires WellFormed(c) && c.Healthy()
    ensures var (r, d) := HandleFailure(j, e, cfg, now, c);
            && (r.WillRetry? || r.FailedForGood?)
            && d.Healthy()
            && d.data.message == Messages.Write(c.data.message, Fail(e in j.permanent), cfg, now)
            && (d.data.cells == c.data.cells
                || (r.FailedForGood? && j.failed.Some? && d.data.cells == c.data.cells[j.cell := j.failed.value.state]))
  {
    var d := Noted(c, Fail(e in j.permanent), cfg, now);
    assert d.OpenSids() == c.OpenSids();
    FailedStateMeans(j.cell, j.failed, d);
  }

  /** Of the locks the side-effects' own transitions took, the attempt leaves held
      exactly those whose unlocks stand behind a commit hook of the consumer's
      that raises: none, if there is no such hook. A BaseException, which tears
      the attempt down, is apart. */
  lemma AttemptReleasesItsLocks(j: Job, cfg: Config, now: int, c: Conn)
    requires Idle(c) && EngineBlocksOnly(j.effects) && !RunAtomic(j, cfg, now, c).0.Escaped?
    ensures var unrun := Tokens(Unrun(Attempted(j, cfg, now, c).1.hooks));
            var after := RunAtomic(j, cfg, now, c).1;
            && after.locks == c.locks + Elements(unrun)
            && (after.locks == c.locks <==> unrun == [])
            && after.hooks == []
  {
    var (r, d) := Attempted(j, cfg, now, c);
    AttemptedKeeps(j, cfg, now, c);
    QueueSplits(c, d);
    CommitEffect(d, c.data);
  }

  lemma AttemptedKeeps(j: Job, cfg: Config, now: int, c: Conn)
    requires Idle(c) && EngineBlocksOnly(j.effects) && !Attempted(j, cfg, now, c).0.Escaped?
    ensures Keeps(c, Done, Attempted(j, cfg, now, c).1, true)
    ensures Attempted(j, cfg, now, c).0.Unrestorable? ==> Attempted(j, cfg, now, c).1 == c
  {
    KeepsItself(c, Done, c, true);
    if j.restoration.Fine? && GuardMatches(j, c.data.cells) {
      if !j.decodes {
        HandleFailureKeeps(j, Ordinary, cfg, now, c, Done, c);
      } else {
        SavepointKeeps(AttemptBody(j), true, c, true);
        var (o, d) := RunInSavepoint(AttemptBody(j), true, c);
        if o.Done? {
          NotedKeeps(c, o, d, Succeed, cfg, now);
        } else {
          HandleFailureKeeps(j, o.e, cfg, now, c, o, d);
        }
      }
    } else {
      KeepsItself(c, Done, Attempted(j, cfg, now, c).1, true);
    }
  }

  lemma NotedKeeps(c: Conn, o: Outcome, d: Conn, op: Op, cfg: Config, now: int)
    requires WellFormed(c) && Keeps(c, o, d, true) && o != Raised(NotAnException)
    ensures Keeps(c, Done, Noted(d, op, cfg, now), true)
  {
    KeepsItself(d, Done, Noted(d, op, cfg, now), true);
    KeepsThen(c, o, d, Done, Noted(d, op, cfg, now), true);
  }

  lemma HandleFailureKeeps(j: Job, e: Exn, cfg: Config, now: int, c: Conn, o: Outcome, d: Conn)
    requires WellFormed(c) && Keeps(c, o, d, true) && o != Raised(NotAnException)
    ensures Keeps(c, Done, HandleFailure(j, e, cfg, now, d).1, true)
  {
    var n := Noted(d, Fail(e in j.permanent), cfg, now);
    NotedKeeps(c, o, d, Fail(e in j.permanent), cfg, now);
    FailedStateKeeps(j.cell, j.failed, n, true);
    if n.data.message.isCompleted {
      KeepsThen(c, Done, n, Done, WriteFailedState(j.cell, j.failed, n).1, true);
    }
  }
}
