/** What every program keeps between the deferred-unlock registry, the queued
    commit hooks and the lock cache. */
module Registry {
  import opened Wrappers
  import opened Savepoints

  /** Identifiers already issued are below the counters, and a block without a
      savepoint exists only on a connection waiting for a rollback. */
  ghost predicate WellFormed(c: Conn) {
    && (forall i :: 0 <= i < |c.blocks| && c.blocks[i].sid.Some? ==> c.blocks[i].sid.value < c.nextSid)
    && (forall i :: 0 <= i < |c.blocks| && c.blocks[i].sid.None? ==> c.needsRollback)
    && (forall i, s :: 0 <= i < |c.hooks| && s in c.hooks[i].sids ==> s < c.nextSid)
    && (forall t :: t in c.locks || t in c.registry ==> t < c.nextToken)
  }

  /** Every queued unlock is covered by a queued clear, no later than right after
      it, that cannot be dropped while the unlock stays: its savepoints still
      open are among the unlock's. */
  ghost predicate Covered(c: Conn) {
    forall i :: 0 <= i < |c.hooks| && c.hooks[i].Unlock? ==>
      exists j :: 0 <= j < |c.hooks| && Covers(c, j, i)
  }

  predicate Covers(c: Conn, j: nat, i: nat)
    requires j < |c.hooks| && i < |c.hooks|
  {
    j <= i + 1 && c.hooks[j].Clear? && c.hooks[j].sids * c.OpenSids() <= c.hooks[i].sids
  }

  /** No token twice. */
  predicate Unrepeated(ts: seq<Token>) {
    forall i, j :: 0 <= i < j < |ts| ==> ts[i] != ts[j]
  }

  /** From `c` to `d`: what was queued and registered stays, what is added
      belongs to every savepoint open at `c`, and only new locks are touched. */
  ghost predicate Grows(c: Conn, d: Conn) {
    && Balanced(c, d)
    && c.hooks <= d.hooks
    && (forall i :: |c.hooks| <= i < |d.hooks| ==> c.OpenSids() <= d.hooks[i].sids)
    && (forall t :: t in Added(c, d) ==> c.nextToken <= t)
    && Elements(Tokens(NewHooks(c, d))) <= Elements(Added(c, d))
    && c.locks <= d.locks
    && (c.needsRollback ==> d.needsRollback && d.registry == c.registry)
  }

  function NewHooks(c: Conn, d: Conn): seq<Hook>
    requires |c.hooks| <= |d.hooks|
  {
    d.hooks[|c.hooks|..]
  }

  function Added(c: Conn, d: Conn): seq<Token>
    requires |c.registry| <= |d.registry|
  {
    d.registry[|c.registry|..]
  }

  /** The entries added to the registry are the unlocks added to the queue, in order. */
  ghost predicate InStep(c: Conn, d: Conn) {
    |c.hooks| <= |d.hooks| && |c.registry| <= |d.registry| && Tokens(NewHooks(c, d)) == Added(c, d)
  }

  /** The locks taken since `c` and still held are those in the registry. */
  ghost predicate Accounted(c: Conn, d: Conn) {
    |c.registry| <= |d.registry| && d.locks == c.locks + Elements(Added(c, d))
  }

  /** No atomic block of the consumer's own, which the registry cannot see roll back. */
  predicate EngineBlocksOnly(p: Prog) {
    match p
    case Then(first, second) => EngineBlocksOnly(first) && EngineBlocksOnly(second)
    case Try(body, handler) => EngineBlocksOnly(body) && EngineBlocksOnly(handler)
    case Atomic(_) => false
    case Savepoint(body, _) => EngineBlocksOnly(body)
    case Callbacks(hooks) => forall i :: 0 <= i < |hooks| ==> EngineBlocksOnly(hooks[i])
    case Drive(_, _, effects, _, _, callbacks, failureCallbacks) =>
      && EngineBlocksOnly(effects)
      && (forall i :: 0 <= i < |callbacks| ==> EngineBlocksOnly(callbacks[i]))
      && (forall i :: 0 <= i < |failureCallbacks| ==> EngineBlocksOnly(failureCallbacks[i]))
    case _ => true
  }

  /** One run from `c`, with outcome `o`, ending in `d`. */
  ghost predicate Keeps(c: Conn, o: Outcome, d: Conn, exact: bool) {
    && WellFormed(d) && Grows(c, d)
    && (Covered(c) ==> Covered(d))
    && Unrepeated(Added(c, d))
    && (exact ==> InStep(c, d))
    && (o != Raised(NotAnException) ==> Accounted(c, d))
  }

  // ----- sequences of hooks -----

  lemma {:induction false} TokensAppend(xs: seq<Hook>, ys: seq<Hook>)
    ensures Tokens(xs + ys) == Tokens(xs) + Tokens(ys)
  {
    if xs == [] {
      assert xs + ys == ys;
    } else {
      var rest := xs[1..];
      assert (xs + ys)[0] == xs[0];
      assert (xs + ys)[1..] == rest + ys;
      TokensAppend(rest, ys);
      var first := if xs[0].Unlock? then [xs[0].token] else [];
      assert Tokens(xs + ys) == first + Tokens(rest + ys);
      assert first + (Tokens(rest) + Tokens(ys)) == (first + Tokens(rest)) + Tokens(ys);
    }
  }

  lemma {:induction false} SurvivingPrefix(xs: seq<Hook>, ys: seq<Hook>, sid: Sid)
    requires forall i :: 0 <= i < |xs| ==> sid !in xs[i].sids
    requires forall i :: 0 <= i < |ys| ==> sid in ys[i].sids
    ensures Surviving(xs + ys, sid) == xs
  {
    if xs != [] {
      assert (xs + ys)[1..] == xs[1..] + ys;
      SurvivingPrefix(xs[1..], ys, sid);
    } else if ys != [] {
      assert xs + ys == ys;
      assert ys[1..] == [] + ys[1..];
      SurvivingPrefix([], ys[1..], sid);
    }
  }

  // ----- composition -----

  lemma GrowsThen(c: Conn, d: Conn, e: Conn)
    requires Grows(c, d) && Grows(d, e)
    ensures Grows(c, e)
    ensures NewHooks(c, e) == NewHooks(c, d) + NewHooks(d, e)
    ensures Added(c, e) == Added(c, d) + Added(d, e)
    ensures Tokens(NewHooks(c, e)) == Tokens(NewHooks(c, d)) + Tokens(NewHooks(d, e))
    ensures Elements(Added(c, e)) == Elements(Added(c, d)) + Elements(Added(d, e))
  {
    AdditionsThen(c, d, e);
    TokensAppend(NewHooks(c, d), NewHooks(d, e));
    ElementsThen(Added(c, d), Added(d, e));
    ElementsThen(Tokens(NewHooks(c, d)), Tokens(NewHooks(d, e)));
    forall i | |c.hooks| <= i < |e.hooks| ensures c.OpenSids() <= e.hooks[i].sids {
      if i < |d.hooks| { assert e.hooks[i] == d.hooks[i]; } else { assert d.OpenSids() == c.OpenSids(); }
    }
    forall t | t in Added(c, e) ensures c.nextToken <= t { assert t in Added(c, d) || t in Added(d, e); }
  }

  lemma AdditionsThen(c: Conn, d: Conn, e: Conn)
    requires c.hooks <= d.hooks <= e.hooks && c.registry <= d.registry <= e.registry
    ensures NewHooks(c, e) == NewHooks(c, d) + NewHooks(d, e) && Added(c, e) == Added(c, d) + Added(d, e)
  {}

  lemma ElementsThen(ts: seq<Token>, us: seq<Token>)
    ensures Elements(ts + us) == Elements(ts) + Elements(us)
  {}

  lemma SomeElement(ts: seq<Token>)
    requires ts != []
    ensures Elements(ts) != {}
  {
    assert ts[0] in Elements(ts);
  }

  lemma KeepsThen(c: Conn, o: Outcome, d: Conn, q: Outcome, e: Conn, exact: bool)
    requires Keeps(c, o, d, exact) && Keeps(d, q, e, exact) && o != Raised(NotAnException)
    ensures Keeps(c, q, e, exact)
  {
    GrowsThen(c, d, e);
    UnrepeatedThen(c, d, e);
  }

  lemma UnrepeatedThen(c: Conn, d: Conn, e: Conn)
    requires WellFormed(d) && Balanced(c, d) && Balanced(d, e)
    requires Unrepeated(Added(c, d)) && Unrepeated(Added(d, e))
    requires forall t :: t in Added(d, e) ==> d.nextToken <= t
    ensures Unrepeated(Added(c, e))
  {
    var xs, ys := Added(c, d), Added(d, e);
    assert Added(c, e) == xs + ys;
    forall i | 0 <= i < |xs| ensures xs[i] < d.nextToken {
      assert xs[i] == d.registry[|c.registry| + i] && d.registry[|c.registry| + i] in d.registry;
    }
    assert forall i :: 0 <= i < |ys| ==> ys[i] in ys;
  }

  lemma KeepsItself(c: Conn, o: Outcome, d: Conn, exact: bool)
    requires WellFormed(c) && d.blocks == c.blocks && d.hooks == c.hooks && d.registry == c.registry && d.locks == c.locks
    requires d.nextSid >= c.nextSid && d.nextToken >= c.nextToken && (c.needsRollback ==> d.needsRollback)
    ensures Keeps(c, o, d, exact)
  {
    assert NewHooks(c, d) == [];
    assert Added(c, d) == [];
    CoveredSame(c, d);
  }

  /** A hook of the consumer's own changes nothing the registry knows of. */
  lemma QueueConsumerKeeps(c: Conn, o: Outcome, raises: bool, exact: bool)
    requires WellFormed(c)
    ensures Keeps(c, o, c.QueueConsumer(raises), exact)
  {
    var d := c.QueueConsumer(raises);
    assert d.OpenSids() == c.OpenSids();
    assert NewHooks(c, d) == [Consumer(c.OpenSids(), raises)];
    assert NewHooks(c, d)[1..] == [];
    assert Added(c, d) == [];
    if Covered(c) {
      forall i | 0 <= i < |d.hooks| && d.hooks[i].Unlock? ensures exists j :: 0 <= j < |d.hooks| && Covers(d, j, i) {
        var j :| 0 <= j < |c.hooks| && Covers(c, j, i);
        assert Covers(d, j, i);
      }
    }
  }

  // ----- entering and leaving -----

  lemma EnterKeeps(c: Conn)
    requires WellFormed(c) && c.Enter().Some?
    ensures var e := c.Enter().value; WellFormed(e) && c.OpenSids() <= e.OpenSids() && (Covered(c) ==> Covered(e))
    ensures !c.needsRollback ==> c.Enter().value.OpenSids() == c.OpenSids() + {c.nextSid}
    ensures c.needsRollback ==> c.Enter().value.OpenSids() == c.OpenSids()
  {
    var e := c.Enter().value;
    var b := e.blocks[|c.blocks|];
    assert e.blocks == c.blocks + [b];
    forall s | s in c.OpenSids() ensures s in e.OpenSids() {
      var i :| 0 <= i < |c.blocks| && c.blocks[i].sid.Some? && c.blocks[i].sid.value == s;
      assert e.blocks[i] == c.blocks[i];
    }
    if b.sid.Some? { assert e.blocks[|c.blocks|].sid.value in e.OpenSids(); }
    if Covered(c) {
      forall i | 0 <= i < |e.hooks| && e.hooks[i].Unlock?
        ensures exists j :: 0 <= j < |e.hooks| && Covers(e, j, i)
      {
        var j :| 0 <= j < |c.hooks| && Covers(c, j, i);
        assert c.nextSid !in c.hooks[j].sids;
        assert Covers(e, j, i);
      }
    }
  }

  /** Leaving a block that rolls back: the queue is what it was on entry. */
  lemma RolledBackQueue(c: Conn, d: Conn)
    requires WellFormed(c) && c.Healthy() && Grows(c.Enter().value, d)
    ensures Surviving(d.hooks, c.nextSid) == c.hooks
  {
    var e := c.Enter().value;
    EnterKeeps(c);
    assert d.hooks == c.hooks + NewHooks(e, d);
    assert forall i :: 0 <= i < |NewHooks(e, d)| ==> NewHooks(e, d)[i] == d.hooks[|c.hooks| + i];
    SurvivingPrefix(c.hooks, NewHooks(e, d), c.nextSid);
  }

  /** What any exit leaves, before the engine looks at the registry. On a rollback
      of this block no unlock queued inside it is left. */
  lemma ExitKeeps(c: Conn, o: Outcome, d: Conn, exact: bool)
    requires WellFormed(c) && c.Enter().Some? && Keeps(c.Enter().value, o, d, exact)
    ensures var (left, x) := d.Exit(o);
            && Keeps(c, left, x, false)
            && x.registry == d.registry && x.locks == d.locks
            && (left.Done? && !d.needsRollback ==> x.hooks == d.hooks)
            && (left.Raised? || d.needsRollback ==> Tokens(NewHooks(c, x)) == [])
            && (!c.needsRollback && (left.Raised? || d.needsRollback) ==> x.hooks == c.hooks)
  {
    var e := c.Enter().value;
    EnterKeeps(c);
    assert e.blocks[..|c.blocks|] == c.blocks;
    if c.needsRollback {
      ExitCommits(c, d);
      assert Added(e, d) == [];
      if Tokens(NewHooks(e, d)) != [] { SomeElement(Tokens(NewHooks(e, d))); }
    } else if o.Done? && !d.needsRollback && !d.aborted {
      ExitCommits(c, d);
    } else {
      RolledBackQueue(c, d);
      ExitWithQueue(c, d, d.Exit(o).1);
    }
  }

  lemma ExitWithQueue(c: Conn, d: Conn, x: Conn)
    requires WellFormed(c) && c.Enter().Some? && WellFormed(d) && Grows(c.Enter().value, d)
    requires x.blocks == c.blocks && x.hooks == c.hooks && x.needsRollback == c.needsRollback
    requires x.registry == d.registry && x.locks == d.locks && x.nextSid == d.nextSid && x.nextToken == d.nextToken
    ensures WellFormed(x) && Grows(c, x) && (Covered(c) ==> Covered(x)) && Added(c, x) == Added(c.Enter().value, d)
    ensures NewHooks(c, x) == []
  {
    assert x.OpenSids() == c.OpenSids();
    assert NewHooks(c, x) == [];
    assert Added(c, x) == Added(c.Enter().value, d);
    if Covered(c) {
      forall i | 0 <= i < |x.hooks| && x.hooks[i].Unlock? ensures exists j :: 0 <= j < |x.hooks| && Covers(x, j, i) {
        var j :| 0 <= j < |c.hooks| && Covers(c, j, i);
        assert Covers(x, j, i);
      }
    }
  }

  /** The block is left with its queue: it committed, or it was opened on a doomed
      connection, and then it leaves the connection doomed. */
  lemma ExitCommits(c: Conn, d: Conn)
    requires WellFormed(c) && c.Enter().Some? && WellFormed(d) && Grows(c.Enter().value, d)
    ensures var x := d.(blocks := c.blocks);
            && WellFormed(x) && Grows(c, x) && (Covered(d) ==> Covered(x))
            && NewHooks(c, x) == NewHooks(c.Enter().value, d) && Added(c, x) == Added(c.Enter().value, d)
  {
    var e := c.Enter().value;
    var x := d.(blocks := c.blocks);
    EnterKeeps(c);
    assert NewHooks(c, x) == NewHooks(e, d) && Added(c, x) == Added(e, d);
    assert c.OpenSids() <= d.OpenSids() == e.OpenSids();
    if Covered(d) {
      forall i | 0 <= i < |x.hooks| && x.hooks[i].Unlock? ensures exists j :: 0 <= j < |x.hooks| && Covers(x, j, i) {
        var j :| 0 <= j < |d.hooks| && Covers(d, j, i);
        assert Covers(x, j, i);
      }
    }
  }

  /** Dropping the window a rolled-back savepoint registered releases exactly
      the locks taken inside it. */
  lemma ReleaseKeeps(c: Conn, o: Outcome, x: Conn, exact: bool)
    requires WellFormed(c) && Keeps(c, o, x, false) && Tokens(NewHooks(c, x)) == []
    ensures Keeps(c, o, x.ReleaseDropped(|c.registry|), exact)
  {
    var r := x.ReleaseDropped(|c.registry|);
    assert r.registry == c.registry;
    assert NewHooks(c, r) == NewHooks(c, x) && Added(c, r) == [];
    assert x.registry[|c.registry|..] == Added(c, x);
    CoveredSame(x, r);
  }

  lemma CoveredSame(c: Conn, d: Conn)
    requires d.hooks == c.hooks && d.blocks == c.blocks
    ensures Covered(c) ==> Covered(d)
  {
    assert d.OpenSids() == c.OpenSids();
    if Covered(c) {
      forall i | 0 <= i < |d.hooks| && d.hooks[i].Unlock? ensures exists j :: 0 <= j < |d.hooks| && Covers(d, j, i) {
        var j :| 0 <= j < |c.hooks| && Covers(c, j, i);
        assert Covers(d, j, i);
      }
    }
  }

  lemma LeaveKeeps(c: Conn, o: Outcome, d: Conn, requireCommit: bool, exact: bool)
    requires WellFormed(c) && c.Enter().Some? && Keeps(c.Enter().value, o, d, exact)
    ensures var (left, x) := d.LeaveSavepoint(o, |c.registry|, requireCommit);
            Keeps(c, left, x, exact)
  {
    var e := c.Enter().value;
    var (left, x) := d.Exit(o);
    ExitKeeps(c, o, d, exact);
    if left.Raised? {
      ReleaseKeeps(c, left, x, exact);
    } else if d.needsRollback {
      ReleaseKeeps(c, left, x, exact);
      assert Keeps(c, Raised(Ordinary), x.ReleaseDropped(|c.registry|), exact);
    } else {
      assert NewHooks(c, x) == NewHooks(e, d) && Added(c, x) == Added(e, d);
    }
  }

  // ----- one transition's own lock -----

  /** A transition's lock as taken from `c`. */
  function Locked(c: Conn): Conn {
    c.(locks := c.locks + {c.nextToken}, nextToken := c.nextToken + 1)
  }

  lemma LockedGrows(c: Conn, o: Outcome, m: Conn, exact: bool)
    requires WellFormed(c) && c.Healthy() && Keeps(Locked(c), o, m, exact)
    ensures Grows(c, m) && Added(c, m) == Added(Locked(c), m) && NewHooks(c, m) == NewHooks(Locked(c), m)
    ensures Covered(c) ==> Covered(m)
    ensures o == Raised(NotAnException) ==> Keeps(c, o, m, exact)
  {
    assert Locked(c).OpenSids() == c.OpenSids();
    CoveredSame(c, Locked(c));
  }

  lemma ReleaseOwn(c: Conn, o: Outcome, m: Conn, q: Outcome, exact: bool)
    requires WellFormed(c) && c.Healthy() && Keeps(Locked(c), o, m, exact) && o != Raised(NotAnException)
    ensures Keeps(c, q, m.Release(c.nextToken), exact)
  {
    LockedGrows(c, o, m, exact);
    var r := m.Release(c.nextToken);
    CoveredSame(m, r);
    assert NewHooks(c, r) == NewHooks(c, m) && Added(c, r) == Added(c, m);
    assert c.nextToken !in Added(c, m);
  }

  lemma DeferOwn(c: Conn, o: Outcome, m: Conn, q: Outcome, exact: bool)
    requires WellFormed(c) && c.Healthy() && Keeps(Locked(c), o, m, exact) && o != Raised(NotAnException)
    ensures Keeps(c, q, m.DeferUnlock(c.nextToken), exact)
  {
    LockedGrows(c, o, m, exact);
    DeferQueue(c, m, c.nextToken);
    DeferWellFormed(m, c.nextToken);
    DeferCovered(m, c.nextToken);
    assert c.nextToken !in Added(c, m);
  }

  /** What a deferred unlock adds to the queue. */
  function Deferral(m: Conn, t: Token): seq<Hook> {
    [Unlock(m.OpenSids(), t)] + if HasClear(m.hooks) then [] else [Clear(m.OpenSids())]
  }

  lemma DeferQueue(c: Conn, m: Conn, t: Token)
    requires Grows(c, m) && c.Healthy() && c.nextToken <= t
    ensures var r := m.DeferUnlock(t);
            && Grows(c, r)
            && Tokens(NewHooks(c, r)) == Tokens(NewHooks(c, m)) + [t]
            && Added(c, r) == Added(c, m) + [t]
            && Elements(Added(c, r)) == Elements(Added(c, m)) + {t}
  {
    DeferAdds(c, m, t);
    DeferralToken(m, t);
    TokensAppend(NewHooks(c, m), Deferral(m, t));
    ElementsAppend(Added(c, m), t);
    ElementsAppend(Tokens(NewHooks(c, m)), t);
    DeferGrows(c, m, t);
  }

  lemma ElementsAppend(ts: seq<Token>, t: Token)
    ensures Elements(ts + [t]) == Elements(ts) + {t}
  {}

  lemma DeferAdds(c: Conn, m: Conn, t: Token)
    requires |c.hooks| <= |m.hooks| && |c.registry| <= |m.registry|
    ensures var r := m.DeferUnlock(t);
            && r.hooks == m.hooks + Deferral(m, t) && r.registry == m.registry + [t]
            && NewHooks(c, r) == NewHooks(c, m) + Deferral(m, t)
            && Added(c, r) == Added(c, m) + [t]
  {
    var r := m.DeferUnlock(t);
    assert r.hooks == m.hooks + Deferral(m, t);
  }

  lemma DeferGrows(c: Conn, m: Conn, t: Token)
    requires Grows(c, m) && c.Healthy() && c.nextToken <= t
    requires var r := m.DeferUnlock(t);
             && |c.hooks| <= |r.hooks| && |c.registry| <= |r.registry|
             && Added(c, r) == Added(c, m) + [t]
             && Elements(Tokens(NewHooks(c, r))) == Elements(Tokens(NewHooks(c, m))) + {t}
             && Elements(Added(c, r)) == Elements(Added(c, m)) + {t}
    ensures Grows(c, m.DeferUnlock(t))
  {
    var r := m.DeferUnlock(t);
    DeferSids(c, m, t);
    forall u | u in Added(c, r) ensures c.nextToken <= u { assert u == t || u in Added(c, m); }
  }

  lemma DeferSids(c: Conn, m: Conn, t: Token)
    requires Balanced(c, m) && c.hooks <= m.hooks
    requires forall i :: |c.hooks| <= i < |m.hooks| ==> c.OpenSids() <= m.hooks[i].sids
    ensures var r := m.DeferUnlock(t);
            c.hooks <= r.hooks && forall i :: |c.hooks| <= i < |r.hooks| ==> c.OpenSids() <= r.hooks[i].sids
  {
    var r := m.DeferUnlock(t);
    DeferAdds(c, m, t);
    DeferralToken(m, t);
    assert m.OpenSids() == c.OpenSids();
    forall i | |c.hooks| <= i < |r.hooks| ensures c.OpenSids() <= r.hooks[i].sids {
      if i >= |m.hooks| { assert r.hooks[i] == Deferral(m, t)[i - |m.hooks|]; }
    }
  }

  lemma DeferralToken(m: Conn, t: Token)
    ensures Tokens(Deferral(m, t)) == [t] && |Deferral(m, t)| >= 1
    ensures forall i :: 0 <= i < |Deferral(m, t)| ==> Deferral(m, t)[i].sids == m.OpenSids()
  {
    var queued := Deferral(m, t);
    assert queued[1..] == if HasClear(m.hooks) then [] else [Clear(m.OpenSids())];
    assert [Clear(m.OpenSids())][1..] == [];
    assert Tokens([Clear(m.OpenSids())]) == Tokens([]);
  }

  lemma DeferWellFormed(m: Conn, t: Token)
    requires WellFormed(m) && t < m.nextToken
    ensures WellFormed(m.DeferUnlock(t))
  {
    var r := m.DeferUnlock(t);
    forall i, s | 0 <= i < |r.hooks| && s in r.hooks[i].sids ensures s < r.nextSid {
      if i < |m.hooks| { assert r.hooks[i] == m.hooks[i]; } else { assert r.hooks[i].sids == m.OpenSids(); }
    }
  }

  lemma DeferCovered(m: Conn, t: Token)
    ensures Covered(m) ==> Covered(m.DeferUnlock(t))
  {
    var r := m.DeferUnlock(t);
    assert r.OpenSids() == m.OpenSids();
    if Covered(m) {
      var k := |r.hooks| - 1;
      if HasClear(m.hooks) { k :| 0 <= k < |m.hooks| && m.hooks[k].Clear?; }
      assert r.hooks[k].Clear?;
      forall i | 0 <= i < |r.hooks| && r.hooks[i].Unlock? ensures exists j :: 0 <= j < |r.hooks| && Covers(r, j, i) {
        if i < |m.hooks| {
          var j :| 0 <= j < |m.hooks| && Covers(m, j, i);
          assert Covers(r, j, i);
        } else {
          assert Covers(r, k, i);
        }
      }
    }
  }

  // ----- every program -----

  /** Whatever the program does, and however deep its blocks roll back. */
  lemma {:induction false} ExecKeeps(p: Prog, c: Conn, exact: bool)
    requires WellFormed(c) && (exact ==> EngineBlocksOnly(p))
    ensures var (o, d) := Exec(p, c); Keeps(c, o, d, exact)
    decreases p, 2
  {
    match p
    case Then(first, second) =>
      var (o, d) := Exec(first, c);
      ExecKeeps(first, c, exact);
      if o.Done? {
        ExecKeeps(second, d, exact);
        KeepsThen(c, o, d, Exec(second, d).0, Exec(second, d).1, exact);
      }
    case Try(body, handler) =>
      var (o, d) := Exec(body, c);
      ExecKeeps(body, c, exact);
      if o.Raised? && o.e != NotAnException {
        ExecKeeps(handler, d, exact);
        KeepsThen(c, o, d, Exec(handler, d).0, Exec(handler, d).1, exact);
      }
    case Atomic(body) =>
      if c.Enter().Some? {
        EnterKeeps(c);
        ExecKeeps(body, c.Enter().value, false);
        var (o, d) := Exec(body, c.Enter().value);
        ExitKeeps(c, o, d, false);
      } else {
        KeepsItself(c, Raised(DatabaseError), c, exact);
      }
    case Savepoint(body, requireCommit) => SavepointKeeps(body, requireCommit, c, exact);
    case Callbacks(hooks) => CallbacksKeep(p, hooks, c, exact);
    case Drive(_, _, _, _, _, _, _) => TransitionKeeps(p, c, exact);
    case OnCommit(raises) => QueueConsumerKeeps(c, Done, raises, exact);
    case _ => KeepsItself(c, Exec(p, c).0, Exec(p, c).1, exact);
  }

  lemma SavepointKeeps(body: Prog, requireCommit: bool, c: Conn, exact: bool)
    requires WellFormed(c) && (exact ==> EngineBlocksOnly(body))
    ensures var (o, d) := RunInSavepoint(body, requireCommit, c); Keeps(c, o, d, exact)
    decreases body, 3
  {
    if c.Enter().Some? {
      EnterKeeps(c);
      ExecKeeps(body, c.Enter().value, exact);
      var (o, d) := Exec(body, c.Enter().value);
      LeaveKeeps(c, o, d, requireCommit, exact);
    } else {
      KeepsItself(c, Raised(DatabaseError), c, exact);
    }
  }

  lemma CallbacksKeep(whole: Prog, hooks: seq<Prog>, c: Conn, exact: bool)
    requires WellFormed(c)
    requires forall i :: 0 <= i < |hooks| ==> hooks[i] < whole && (exact ==> EngineBlocksOnly(hooks[i]))
    ensures var (o, d) := RunCallbacks(whole, hooks, c); Keeps(c, o, d, exact)
    decreases whole, 0, 0, |hooks|
  {
    if hooks == [] {
      KeepsItself(c, Done, c, exact);
    } else {
      SavepointKeeps(hooks[0], false, c, exact);
      var (o, d) := RunInSavepoint(hooks[0], false, c);
      if o != Raised(NotAnException) {
        CallbacksKeep(whole, hooks[1..], d, exact);
        var (q, e) := RunCallbacks(whole, hooks[1..], d);
        KeepsThen(c, o, d, q, e, exact);
      }
    }
  }

  lemma TransitionKeeps(p: Prog, c: Conn, exact: bool)
    requires WellFormed(c) && p.Drive? && (exact ==> EngineBlocksOnly(p))
    ensures var (o, d) := RunTransition(p, c); Keeps(c, o, d, exact)
    decreases p, 1
  {
    if !c.Healthy() || !p.admitted {
      KeepsItself(c, RunTransition(p, c).0, c, exact);
    } else {
      var l := Locked(c);
      assert WellFormed(l) by { assert l.OpenSids() == c.OpenSids(); }
      ExecKeeps(p.effects, l, exact);
      var (o, d) := Exec(p.effects, l);
      if o.Done? {
        CompleteKeeps(p, c, o, d, exact);
      } else if o.e == NotAnException {
        LockedGrows(c, o, d, exact);
      } else {
        FailKeeps(p, c, o, d, exact);
      }
    }
  }

  lemma CompleteKeeps(p: Prog, c: Conn, o: Outcome, d: Conn, exact: bool)
    requires WellFormed(c) && c.Healthy() && p.Drive? && (exact ==> EngineBlocksOnly(p))
    requires Keeps(Locked(c), o, d, exact) && o.Done?
    ensures var (q, e) := CompleteTransition(p, c.nextToken, d); Keeps(c, q, e, exact)
    decreases p, 0, 1
  {
    var (w, e) := Statement(p.cell, p.target, d);
    KeepsItself(d, w, e, exact);
    KeepsThen(Locked(c), o, d, w, e, exact);
    if w.Raised? {
      ReleaseOwn(c, w, e, w, exact);
    } else {
      DeferOwn(c, w, e, w, exact);
      HooksKeep(p, p.callbacks, c, w, e.DeferUnlock(c.nextToken), exact);
    }
  }

  lemma HooksKeep(p: Prog, hooks: seq<Prog>, c: Conn, o: Outcome, f: Conn, exact: bool)
    requires WellFormed(f) && Keeps(c, o, f, exact) && o != Raised(NotAnException)
    requires forall i :: 0 <= i < |hooks| ==> hooks[i] < p && (exact ==> EngineBlocksOnly(hooks[i]))
    ensures var (q, g) := RunCallbacks(p, hooks, f); Keeps(c, q, g, exact)
    decreases p, 0, 0, |hooks| + 1
  {
    CallbacksKeep(p, hooks, f, exact);
    var (q, g) := RunCallbacks(p, hooks, f);
    KeepsThen(c, o, f, q, g, exact);
  }

  lemma FailedStateKeeps(cell: string, failed: Option<StateWrite>, c: Conn, exact: bool)
    requires WellFormed(c)
    ensures Keeps(c, Done, WriteFailedState(cell, failed, c).1, exact)
  {
    if failed.Some? && c.Enter().Some? {
      EnterKeeps(c);
      var e := c.Enter().value;
      var (o, d) := Statement(cell, failed.value, e);
      KeepsItself(e, o, d, exact);
      LeaveKeeps(c, o, d, true, exact);
    } else {
      KeepsItself(c, Done, c, exact);
    }
  }

  lemma FailKeeps(p: Prog, c: Conn, o: Outcome, d: Conn, exact: bool)
    requires WellFormed(c) && c.Healthy() && p.Drive? && (exact ==> EngineBlocksOnly(p))
    requires Keeps(Locked(c), o, d, exact) && o.Raised? && o.e != NotAnException
    ensures var (q, e) := FailTransition(p, c.nextToken, o, d); Keeps(c, q, e, exact)
    decreases p, 0, 1
  {
    var (wrote, e) := WriteFailedState(p.cell, p.failed, d);
    FailedStateKeeps(p.cell, p.failed, d, exact);
    KeepsThen(Locked(c), o, d, Done, e, exact);
    if wrote { DeferOwn(c, Done, e, o, exact); } else { ReleaseOwn(c, Done, e, o, exact); }
    var f := if wrote then e.DeferUnlock(c.nextToken) else e.Release(c.nextToken);
    CallbacksKeep(p, p.failureCallbacks, f, exact);
    var (q, g) := RunCallbacks(p, p.failureCallbacks, f);
    KeepsThen(c, o, f, q, g, exact);
  }
}
