/** `run_worker(forever=False)`: drain the claimable rows, one forked attempt at
    a time, with the safety nets on schedule. What an attempt does and how long
    things take is arbitrary. */
module Worker {
  import opened Wrappers
  import opened Messages
  import opened Table
  import opened Cleanup
  import opened Journal

  const SAFETY_NET_MS := 60_000

  /** How the attempt's own process leaves the row. */
  datatype Ending = Landed | Raised(permanent: bool) | RestoreRaised | Unrestorable | MovedAway | NothingRecorded

  lemma OldestExists(rows: map<Pk, Entry>, some: set<Pk>) returns (pk: Pk)
    requires some != {} && some <= rows.Keys
    ensures pk in some && forall q :: q in some ==> rows[pk].message.created <= rows[q].message.created
    decreases |some|
  {
    var p :| p in some;
    if some == {p} {
      pk := p;
    } else {
      assert some - {p} != {};
      var q := OldestExists(rows, some - {p});
      pk := if rows[p].message.created <= rows[q].message.created then p else q;
    }
  }

  lemma LeastTimeoutExists(rows: map<Pk, Entry>, some: set<Pk>) returns (pk: Pk)
    requires some != {} && some <= rows.Keys && forall q :: q in some ==> rows[q].message.timeoutSeconds.Some?
    ensures pk in some
    ensures forall q :: q in some ==> rows[pk].message.timeoutSeconds.value <= rows[q].message.timeoutSeconds.value
    decreases |some|
  {
    var p :| p in some;
    if some == {p} {
      pk := p;
    } else {
      assert some - {p} != {};
      var q := LeastTimeoutExists(rows, some - {p});
      pk := if rows[p].message.timeoutSeconds.value <= rows[q].message.timeoutSeconds.value then p else q;
    }
  }

  /** The write that records an ending. */
  function Recording(ending: Ending): Op
    requires !ending.NothingRecorded?
  {
    match ending
    case Landed => Succeed
    case Raised(permanent) => Fail(permanent)
    case RestoreRaised => RestoreFail
    case Unrestorable => GiveUp
    case MovedAway => Supersede
  }

  /** Written by a safety net at or after `at`: completed, or waiting anew. */
  predicate Sidelined(m: Message, at: int) {
    m.isCompleted || (m.lastErrorDt.Some? && m.lastErrorDt.value >= at)
  }

  /** A safety net leaves a row alone or sidelines it, and gives no retries back. */
  predicate NettedRow(before: Entry, after: Entry, cfg: Config, at: int) {
    && (after == before || Sidelined(after.message, at))
    && after.queue == before.queue && Left(after.message, cfg) <= Left(before.message, cfg)
  }

  ghost predicate Netted(before: map<Pk, Entry>, rows: map<Pk, Entry>, cfg: Config, at: int) {
    forall pk :: pk in rows ==> pk in before && NettedRow(before[pk], rows[pk], cfg, at)
  }

  /** Exactly the rows in `changed` are no longer what the scan saw. */
  ghost predicate Changed(scan: map<Pk, Entry>, rows: map<Pk, Entry>, changed: set<Pk>) {
    && rows.Keys == scan.Keys && changed <= scan.Keys
    && forall pk :: pk in scan ==> (pk in changed <==> rows[pk] != scan[pk])
  }

  lemma ChangesOne(scan: map<Pk, Entry>, before: map<Pk, Entry>, rows: map<Pk, Entry>, changed: set<Pk>, pk: Pk)
    requires Changed(scan, before, changed) && pk in scan && pk !in changed
    requires pk in rows && rows == before[pk := rows[pk]] && rows[pk] != scan[pk]
    ensures Changed(scan, rows, changed + {pk})
  {}

  lemma ChangedNets(scan: map<Pk, Entry>, rows: map<Pk, Entry>, changed: set<Pk>, cfg: Config, at: int)
    requires Changed(scan, rows, changed) && forall pk :: pk in changed ==> NettedRow(scan[pk], rows[pk], cfg, at)
    ensures Netted(scan, rows, cfg, at)
  {}

  lemma NettedTwice(first: map<Pk, Entry>, second: map<Pk, Entry>, third: map<Pk, Entry>, cfg: Config, at: int, later: int)
    requires at <= later && Netted(first, second, cfg, at) && Netted(second, third, cfg, later)
    ensures Netted(first, third, cfg, at)
  {}

  /** The row after a charge or a finalization. */
  lemma ChargeNets(e: Entry, op: Op, cfg: Config, now: int, at: int)
    requires Allowed(e.message, op, cfg, now) && (op.Charge? || op.Finalize?) && at <= now
    ensures NettedRow(e, Touched(e, op, cfg, now), cfg, at)
    ensures op.Finalize? ==> Touched(e, op, cfg, now).message.isCompleted
    ensures op.Charge? ==> Touched(e, op, cfg, now).message.errorsCount == e.message.errorsCount + 1
  {}

  lemma SidelinedWaits(m: Message, cfg: Config, at: int)
    requires Sidelined(m, at)
    ensures !m.Claimable(cfg, at)
  {}

  class Worker {
    const cfg: Config
    const queues: set<string>
    const cleanupMs: nat
    var rows: map<Pk, Entry>
    var now: int
    var uptime: nat
    ghost const start: map<Pk, Entry>
    ghost const from: int
    ghost var journal: seq<Item>

    constructor (cfg: Config, queues: set<string>, cleanupMs: nat, rows: map<Pk, Entry>, now: int, uptime: nat)
      requires ValidConfig(cfg)
      ensures this.cfg == cfg && this.queues == queues && this.cleanupMs == cleanupMs
      ensures this.rows == rows == start && this.now == now == from && this.uptime == uptime
      ensures Valid()
    {
      this.cfg, this.queues, this.cleanupMs := cfg, queues, cleanupMs;
      this.rows, this.now, this.uptime := rows, now, uptime;
      this.start, this.from, this.journal := rows, now, [];
    }

    /** The table is what the journal made of the one the worker started on. */
    ghost predicate Valid()
      reads this
    {
      ValidConfig(cfg) && Replays(start, start.Keys, journal, rows, cfg, from, now)
    }

    ghost function Retries(): nat
      reads this
    {
      Budget(rows, cfg)
    }

    predicate Takes(e: Entry, at: int) {
      e.queue in queues && e.message.Claimable(cfg, at)
    }

    /** Time passes. */
    method Pass()
      requires Valid()
      modifies `now, `uptime
      ensures Valid() && now >= old(now)
    {
      var ms: nat :| true;
      ReplaysLater(start, start.Keys, journal, rows, cfg, from, now, now + ms);
      now, uptime := now + ms, uptime + ms;
    }

    /** One statement on one row. */
    method Update(pk: Pk, op: Op)
      requires Valid() && pk in rows && Allowed(rows[pk].message, op, cfg, now)
      modifies `rows, `journal
      ensures Valid() && rows == old(rows)[pk := Touched(old(rows)[pk], op, cfg, now)]
    {
      ReplaysMore(start, start.Keys, journal, rows, Touch(pk, op, now), cfg, from, now);
      rows := rows[pk := Touched(rows[pk], op, cfg, now)];
      journal := journal + [Touch(pk, op, now)];
    }

    /** The oldest row of the served queues that may be taken now. */
    method ClaimNext() returns (next: Option<Pk>)
      ensures next.Some? ==>
                && next.value in rows && Takes(rows[next.value], now)
                && forall q :: q in rows && Takes(rows[q], now) ==>
                     rows[next.value].message.created <= rows[q].message.created
      ensures next.None? ==> forall q :: q in rows ==> !Takes(rows[q], now)
    {
      var claimable := set pk | pk in rows && Takes(rows[pk], now);
      if claimable == {} {
        forall q | q in rows ensures !Takes(rows[q], now) { assert q !in claimable; }
        return None;
      }
      ghost var oldest := OldestExists(rows, claimable);
      var pk :| pk in claimable && forall q :: q in claimable ==> rows[pk].message.created <= rows[q].message.created;
      return Some(pk);
    }

    /** The attempt's own process: the stamp, the work, and what it recorded. */
    method RunBackgroundTransition(pk: Pk, ending: Ending)
      requires Valid() && pk in rows && !rows[pk].message.isCompleted
      modifies this
      ensures Valid() && now >= old(now) && pk in rows && rows == old(rows)[pk := rows[pk]]
      ensures rows[pk].queue == old(rows)[pk].queue
      ensures var was, after := old(rows)[pk].message, rows[pk].message;
              if ending.NothingRecorded? then !after.isCompleted && after.errorsCount == was.errorsCount
              else after.isCompleted || after.errorsCount == was.errorsCount + 1
    {
      Update(pk, Stamp);
      Pass();
      if !ending.NothingRecorded? { Update(pk, Recording(ending)); }
    }

    /** A forked attempt, which may die after whatever it recorded; the parent
        then records the death, unless the row completed first. */
    method RunAttemptInChild(pk: Pk)
      requires Valid() && pk in rows && rows[pk].message.Claimable(cfg, now)
      modifies this
      ensures Valid() && now >= old(now) && pk in rows && rows == old(rows)[pk := rows[pk]]
      ensures Left(rows[pk].message, cfg) < Left(old(rows)[pk].message, cfg)
    {
      var ending: Ending := *;
      var died: bool := *;
      RunBackgroundTransition(pk, ending);
      Pass();
      if (died || ending.NothingRecorded?) && !rows[pk].message.isCompleted { Update(pk, Death); }
    }

    /** At most one row; false only when nothing could be taken. */
    method RunOnce() returns (ran: bool)
      requires Valid()
      modifies this
      ensures Valid() && now >= old(now)
      ensures ran ==> Retries() < old(Retries())
      ensures !ran ==> rows == old(rows) && forall q :: q in rows ==> !Takes(rows[q], now)
    {
      Pass();
      var next := ClaimNext();
      if next.None? { return false; }
      ghost var before := rows;
      RunAttemptInChild(next.value);
      BudgetFallsAt(before, rows, cfg, next.value);
      return true;
    }

    // ----- the safety nets -----

    /** Decides on the row as it is now, whatever the scan saw. */
    method AbandonTimedOutAttempt(pk: Pk) returns (touched: bool)
      requires Valid()
      modifies `rows, `journal
      ensures Valid()
      ensures touched <==> pk in old(rows) && old(rows)[pk].message.Chargeable(now)
      ensures !touched ==> rows == old(rows)
      ensures touched ==> pk in rows && rows == old(rows)[pk := rows[pk]] && NettedRow(old(rows)[pk], rows[pk], cfg, now)
      ensures touched ==> rows[pk].message.errorsCount == old(rows)[pk].message.errorsCount + 1
    {
      if pk !in rows || !rows[pk].message.Chargeable(now) { return false; }
      var superseded: bool := *;
      ChargeNets(rows[pk], Charge(superseded), cfg, now, now);
      Update(pk, Charge(superseded));
      return true;
    }

    /** The candidates of the watchdog's scan: started before the floor that the
        smallest declared timeout sets. It leaves no overdue row out. */
    method WatchdogCandidates() returns (candidates: set<Pk>)
      ensures forall pk :: pk in candidates ==>
                && pk in rows && !rows[pk].message.isCompleted
                && rows[pk].message.startedAt.Some? && rows[pk].message.timeoutSeconds.Some?
      ensures forall pk :: pk in rows && !rows[pk].message.isCompleted && rows[pk].message.Overdue(now) ==> pk in candidates
    {
      var base := set pk | pk in rows && !rows[pk].message.isCompleted
                             && rows[pk].message.startedAt.Some? && rows[pk].message.timeoutSeconds.Some?;
      if base == {} {
        forall pk | pk in rows && !rows[pk].message.isCompleted ensures !rows[pk].message.Overdue(now) { assert pk !in base; }
        return {};
      }
      ghost var least := LeastTimeoutExists(rows, base);
      var shortest :| shortest in base && forall q :: q in base ==>
        rows[shortest].message.timeoutSeconds.value <= rows[q].message.timeoutSeconds.value;
      var floor := now - rows[shortest].message.timeoutSeconds.value * 1000;
      candidates := set pk | pk in base && rows[pk].message.startedAt.value < floor;
    }

    /** Every row chargeable at the scan is charged once, unless charging it
        raised; no row within its timeout is touched; and the count is of the
        rows that changed. */
    method WatchdogStaleAttempts() returns (touched: nat, ghost raised: set<Pk>, ghost charged: set<Pk>)
      requires Valid()
      modifies this
      ensures Valid() && now >= old(now) && rows.Keys == old(rows).Keys && Netted(old(rows), rows, cfg, old(now))
      ensures forall pk :: pk in old(rows) && !old(rows)[pk].message.Overdue(old(now)) ==> rows[pk] == old(rows)[pk]
      ensures forall pk :: pk in old(rows) && pk !in raised && old(rows)[pk].message.Chargeable(old(now)) ==>
                rows[pk].message.errorsCount == old(rows)[pk].message.errorsCount + 1
      ensures touched == |charged| && forall pk :: pk in old(rows) ==> (pk in charged <==> rows[pk] != old(rows)[pk])
      ensures charged <= old(rows).Keys
    {
      touched, raised, charged := 0, {}, {};
      var scan, at := rows, now;
      var candidates := WatchdogCandidates();
      ghost var all := candidates;
      while candidates != {}
        invariant candidates <= all && Valid() && now >= at && touched == |charged| && charged <= all - candidates
        invariant Changed(scan, rows, charged)
        invariant forall pk :: pk in charged ==>
                    && scan[pk].message.Overdue(at) && NettedRow(scan[pk], rows[pk], cfg, at)
                    && rows[pk].message.errorsCount == scan[pk].message.errorsCount + 1
        invariant forall pk :: pk in all && pk !in candidates && pk !in raised && scan[pk].message.Chargeable(at) ==> pk in charged
        decreases candidates
      {
        var pk :| pk in candidates;
        candidates := candidates - {pk};
        if scan[pk].message.startedAt.value + scan[pk].message.timeoutSeconds.value * 1000 >= at { continue; }
        Pass();
        var raises: bool := *;
        if raises { raised := raised + {pk}; continue; }
        ghost var before := rows;
        var counted := AbandonTimedOutAttempt(pk);
        if counted {
          ChangesOne(scan, before, rows, charged, pk);
          touched, charged := touched + 1, charged + {pk};
        }
      }
      ChangedNets(scan, rows, charged, cfg, at);
    }

    /** Every row at the error limit is completed, unless finalizing it raised; no
        other row is touched; and the count is of the rows completed. */
    method DetectStuckTransitions() returns (finalized: nat, ghost raised: set<Pk>, ghost done: set<Pk>)
      requires Valid()
      modifies this
      ensures Valid() && now >= old(now) && rows.Keys == old(rows).Keys && Netted(old(rows), rows, cfg, old(now))
      ensures forall pk :: pk in old(rows) && pk !in raised && old(rows)[pk].message.InStuckScan(cfg) ==> rows[pk].message.isCompleted
      ensures forall pk :: pk in old(rows) && !old(rows)[pk].message.InStuckScan(cfg) ==> rows[pk] == old(rows)[pk]
      ensures finalized == |done| && done <= old(rows).Keys
      ensures forall pk :: pk in old(rows) ==> (pk in done <==> rows[pk] != old(rows)[pk])
    {
      finalized, raised, done := 0, {}, {};
      var scan, at := rows, now;
      var stuck := set pk | pk in scan && scan[pk].message.InStuckScan(cfg);
      ghost var all := stuck;
      while stuck != {}
        invariant stuck <= all && Valid() && now >= at && finalized == |done| && done <= all - stuck
        invariant Changed(scan, rows, done)
        invariant forall pk :: pk in done ==> rows[pk].message.isCompleted && NettedRow(scan[pk], rows[pk], cfg, at)
        invariant forall pk :: pk in all && pk !in stuck && pk !in raised ==> pk in done
        decreases stuck
      {
        var pk :| pk in stuck;
        stuck := stuck - {pk};
        Pass();
        var raises: bool := *;
        if raises { raised := raised + {pk}; continue; }
        ghost var before := rows;
        var superseded: bool := *;
        ChargeNets(rows[pk], Finalize(superseded), cfg, now, at);
        Update(pk, Finalize(superseded));
        ChangesOne(scan, before, rows, done, pk);
        finalized, done := finalized + 1, done + {pk};
      }
      ChangedNets(scan, rows, done, cfg, at);
    }

    method CleanupCompletedTransitions() returns (deleted: nat)
      requires Valid()
      modifies `rows, `journal
      ensures Valid() && rows == Swept(old(rows), now - cleanupMs) && deleted == |old(rows)| - |rows|
    {
      var kept := Swept(rows, now - cleanupMs);
      SweptSmaller(rows, now - cleanupMs);
      ReplaysMore(start, start.Keys, journal, rows, Sweep(now - cleanupMs), cfg, from, now);
      deleted := |rows| - |kept|;
      rows := kept;
      journal := journal + [Sweep(now - cleanupMs)];
    }

    /** Each net runs even if another raised. */
    method RunSafetyNets()
      requires Valid()
      modifies this
      ensures Valid() && now >= old(now) && Netted(old(rows), rows, cfg, old(now)) && Retries() <= old(Retries())
    {
      ghost var before, at := rows, now;
      var raises: bool := *;
      if !raises { var n, _, _ := WatchdogStaleAttempts(); }
      ghost var watched, nets := rows, now;
      raises := *;
      if !raises { var n, _, _ := DetectStuckTransitions(); }
      NettedTwice(before, watched, rows, cfg, at, nets);
      raises := *;
      if !raises { var n := CleanupCompletedTransitions(); }
      BudgetFalls(before, rows, cfg);
    }

    // ----- the loop -----

    /** With one worker and no new rows the drain ends, whatever the attempts do,
        within the retries the rows had left; and when it returns, nothing in its
        queues could be taken at its last claim. */
    method RunWorker() returns (attempts: nat, drainedAt: int)
      requires Valid()
      modifies this
      ensures Valid() && attempts <= old(Retries())
      ensures old(now) <= drainedAt <= now && forall pk :: pk in rows ==> !Takes(rows[pk], drainedAt)
    {
      var lastSafetyNet := 0;
      attempts, drainedAt := 0, now;
      while true
        invariant Valid() && now >= old(now) && attempts + Retries() <= old(Retries())
        decreases Retries()
      {
        var ranAny, ran := false, true;
        ghost var left := Retries();
        while ran
          invariant Valid() && now >= old(now) && attempts + Retries() <= old(Retries())
          invariant if ranAny then Retries() < left else Retries() == left
          invariant !ranAny && !ran ==> old(now) <= drainedAt <= now && forall pk :: pk in rows ==> !Takes(rows[pk], drainedAt)
          decreases Retries(), ran
        {
          ran := RunOnce();
          drainedAt := now;
          if ran {
            ranAny, attempts := true, attempts + 1;
            if uptime - lastSafetyNet >= SAFETY_NET_MS { break; }
          }
        }
        ghost var drained := rows;
        if uptime - lastSafetyNet >= SAFETY_NET_MS {
          RunSafetyNets();
          lastSafetyNet := uptime;
        }
        if !ranAny {
          NetsClaimNothing(drained, drainedAt);
          return;
        }
      }
    }

    lemma NetsClaimNothing(drained: map<Pk, Entry>, at: int)
      requires Netted(drained, rows, cfg, at) || rows == drained
      requires forall pk :: pk in drained ==> !Takes(drained[pk], at)
      ensures forall pk :: pk in rows ==> !Takes(rows[pk], at)
    {
      forall pk | pk in rows ensures !Takes(rows[pk], at) {
        if rows[pk] != drained[pk] { SidelinedWaits(rows[pk].message, cfg, at); }
      }
    }
  }

  /** What a drain leaves of any row it started on: exactly what that row's own
      allowed writes made of it, and no row gone that had not completed. */
  lemma DrainFollows(worker: Worker, pk: Pk)
    requires worker.Valid() && pk in worker.start
    ensures Follows(worker.start[pk], pk, EventsOf(pk, worker.journal), worker.rows, worker.cfg, worker.from, worker.now)
  {
    StartFollows(worker.start, worker.start.Keys, worker.journal, worker.rows, worker.cfg, worker.from, worker.now, pk);
  }

  lemma SweptSmaller(rows: map<Pk, Entry>, cutoff: int)
    ensures |Swept(rows, cutoff)| <= |rows|
  {
    assert Swept(rows, cutoff).Keys <= rows.Keys;
    SubsetSmaller(Swept(rows, cutoff).Keys, rows.Keys);
  }

  lemma {:induction false} SubsetSmaller(a: set<Pk>, b: set<Pk>)
    requires a <= b
    ensures |a| <= |b|
  {
    if a != {} {
      var x :| x in a;
      SubsetSmaller(a - {x}, b - {x});
    }
  }
}
