/** Django's connection as the engine relies on it (atomic blocks, savepoints,
    `needs_rollback`, commit hooks), the deferred-unlock registry kept beside
    it, and the programs that run on it: hooks, nested atomics, transitions. */
module Savepoints {
  import opened Wrappers
  import opened Messages

  type Token = nat
  type Sid = nat

  datatype Exn = Ordinary | DatabaseError | NotAnException  // the last is a BaseException only

  datatype Outcome = Done | Raised(e: Exn)

  /** One `run_on_commit` entry: the savepoints open when it was registered. The
      engine queues unlocks and clears; consumer code may queue functions of its
      own, which may raise when they run (`robust=True` makes them never raise). */
  datatype Hook =
    | Unlock(sids: set<Sid>, token: Token)
    | Clear(sids: set<Sid>)
    | Consumer(sids: set<Sid>, raises: bool)

  /** What the database holds, seen from one attempt: the cells consumer code and
      transitions write (state columns among them), and the attempt's row. */
  datatype Data = Data(cells: map<string, string>, message: Message)

  /** An inner atomic block: no savepoint id when it opened on a connection
      already waiting for a rollback. */
  datatype Block = Block(sid: Option<Sid>, before: Data)

  datatype Conn = Conn(
    data: Data,                 // what statements on this connection see
    blocks: seq<Block>,   // innermost last; the outermost atomic is implicit
    needsRollback: bool,
    aborted: bool,           // PostgreSQL refuses statements until a rollback
    hooks: seq<Hook>,
    registry: seq<Token>,    // _dl_deferred_unlocks
    locks: set<Token>,       // lock tokens the cache holds
    nextSid: Sid,
    nextToken: Token)
  {
    predicate Healthy() { !needsRollback && !aborted }

    function OpenSids(): set<Sid> {
      set i | 0 <= i < |blocks| && blocks[i].sid.Some? :: blocks[i].sid.value
    }

    // ----- django.db.transaction.Atomic -----

    /** `None` when the SAVEPOINT statement itself is refused. */
    function Enter(): Option<Conn> {
      if needsRollback then Option.Some(this.(blocks := blocks + [Block(Option.None, data)]))
      else if aborted then Option.None
      else Option.Some(this.(blocks := blocks + [Block(Option.Some(nextSid), data)], nextSid := nextSid + 1))
    }

    function RolledBackTo(b: Block): Conn
      requires b.sid.Some?
    {
      this.(data := b.before, aborted := false, needsRollback := false, hooks := Surviving(hooks, b.sid.value))
    }

    function Exit(o: Outcome): (Outcome, Conn)
      requires blocks != []
    {
      var b := blocks[|blocks| - 1];
      var c := this.(blocks := blocks[..|blocks| - 1]);
      if o.Done? && !needsRollback then
        if b.sid.Some? && aborted then (Raised(DatabaseError), c.RolledBackTo(b))  // RELEASE refused
        else (Done, c)
      else if b.sid.None? then (o, c.(needsRollback := true))
      else (o, c.RolledBackTo(b))
    }

    // ----- the registry -----

    /** `on_commit(state.unlock)`, then `note_deferred_unlock`. */
    function DeferUnlock(t: Token): Conn {
      var unlock := hooks + [Unlock(OpenSids(), t)];
      this.(hooks := if HasClear(hooks) then unlock else unlock + [Clear(OpenSids())],
            registry := registry + [t])
    }

    /** The consumer's own `transaction.on_commit`. */
    function QueueConsumer(raises: bool): Conn {
      this.(hooks := hooks + [Consumer(OpenSids(), raises)])
    }

    function ReleaseDropped(before: nat): Conn
      requires before <= |registry|
    {
      this.(registry := registry[..before], locks := locks - Elements(registry[before..]))
    }

    function Release(t: Token): Conn {
      this.(locks := locks - {t})
    }

    /** The end of `_run_in_savepoint`, after its function returned or raised `o`. */
    function LeaveSavepoint(o: Outcome, before: nat, requireCommit: bool): (Outcome, Conn)
      requires blocks != [] && before <= |registry|
    {
      var (left, c) := Exit(o);
      if left.Raised? then (left, c.ReleaseDropped(before))
      else if needsRollback then
        (if requireCommit then Raised(Ordinary) else Done, c.ReleaseDropped(before))
      else (Done, c)
    }
  }

  function Elements(ts: seq<Token>): set<Token> {
    set t | t in ts
  }

  function HasClear(hooks: seq<Hook>): bool {
    exists i :: 0 <= i < |hooks| && hooks[i].Clear?
  }

  /** Hooks registered while savepoint `sid` was open are dropped with it. */
  function Surviving(hooks: seq<Hook>, sid: Sid): seq<Hook> {
    if hooks == [] then []
    else (if sid in hooks[0].sids then [] else [hooks[0]]) + Surviving(hooks[1..], sid)
  }

  /** The unlocks among `hooks`, in order. */
  function Tokens(hooks: seq<Hook>): seq<Token> {
    if hooks == [] then []
    else (if hooks[0].Unlock? then [hooks[0].token] else []) + Tokens(hooks[1..])
  }

  // ----- programs -----

  /** Consumer code, as far as the connection and the locks can tell. */
  datatype Prog =
    | Skip
    | Write(cell: string, value: string)
    | RejectedWrite                          // save() raises a database error
    | FailedQuery                            // a raw query the server refuses
    | Raise(e: Exn)
    | OnCommit(raises: bool)                 // transaction.on_commit(f)
    | Then(first: Prog, second: Prog)
    | Try(body: Prog, handler: Prog)         // except Exception
    | Atomic(body: Prog)                     // the consumer's own atomic block
    | Savepoint(body: Prog, requireCommit: bool)
    | Callbacks(hooks: seq<Prog>)            // each one contained
    /** A synchronous transition on another instance, under
        DEFER_UNLOCK_UNTIL_COMMIT inside the open transaction: `cell` is that
        instance's state column, `admitted` says the lock is free and the gates pass. */
    | Drive(cell: string, admitted: bool, effects: Prog, target: StateWrite, failed: Option<StateWrite>,
            callbacks: seq<Prog>, failureCallbacks: seq<Prog>)

  /** A state to write, and whether the database accepts it. */
  datatype StateWrite = StateWrite(state: string, accepted: bool)

  /** One statement that writes `cell`. */
  function Statement(cell: string, w: StateWrite, c: Conn): (Outcome, Conn) {
    if c.Healthy() && w.accepted then (Done, c.(data := c.data.(cells := c.data.cells[cell := w.state])))
    else (Raised(DatabaseError), c.(needsRollback := true, aborted := c.aborted || c.Healthy()))
  }

  function Exec(p: Prog, c: Conn): (r: (Outcome, Conn))
    ensures Balanced(c, r.1)
    decreases p, 2
  {
    match p
    case Skip => (Done, c)
    case Write(cell, value) => Statement(cell, StateWrite(value, true), c)
    case RejectedWrite => Statement("", StateWrite("", false), c)
    case FailedQuery =>
      (Raised(DatabaseError), if c.Healthy() then c.(aborted := true) else c)
    case Raise(e) => (Raised(e), c)
    case OnCommit(raises) => (Done, c.QueueConsumer(raises))
    case Then(first, second) =>
      var (o, d) := Exec(first, c);
      if o.Done? then Exec(second, d) else (o, d)
    case Try(body, handler) =>
      var (o, d) := Exec(body, c);
      if o.Raised? && o.e != NotAnException then Exec(handler, d) else (o, d)
    case Atomic(body) =>
      var entered := c.Enter();
      if entered.None? then (Raised(DatabaseError), c)
      else
        var (o, d) := Exec(body, entered.value);
        d.Exit(o)
    case Savepoint(body, requireCommit) => RunInSavepoint(body, requireCommit, c)
    case Callbacks(hooks) => RunCallbacks(p, hooks, c)
    case Drive(_, _, _, _, _, _, _) => RunTransition(p, c)
  }

  /** Blocks close in the order they opened, nothing already queued or
      registered is dropped, and a doomed connection stays doomed. */
  predicate Balanced(c: Conn, d: Conn) {
    && d.blocks == c.blocks
    && c.nextSid <= d.nextSid && c.nextToken <= d.nextToken
    && c.registry <= d.registry
  }

  function RunInSavepoint(body: Prog, requireCommit: bool, c: Conn): (r: (Outcome, Conn))
    ensures Balanced(c, r.1)
    decreases body, 3
  {
    var entered := c.Enter();
    if entered.None? then (Raised(DatabaseError), c)
    else
      var (o, d) := Exec(body, entered.value);
      d.LeaveSavepoint(o, |c.registry|, requireCommit)
  }

  /** `Callbacks.execute` inside a transaction: each hook in its own savepoint,
      its exceptions logged and dropped. */
  function RunCallbacks(whole: Prog, hooks: seq<Prog>, c: Conn): (r: (Outcome, Conn))
    requires forall i :: 0 <= i < |hooks| ==> hooks[i] < whole
    ensures Balanced(c, r.1)
    decreases whole, 0, 0, |hooks|
  {
    if hooks == [] then (Done, c)
    else
      var (o, d) := RunInSavepoint(hooks[0], false, c);
      if o == Raised(NotAnException) then (o, d) else RunCallbacks(whole, hooks[1..], d)
  }

  /** `Transition.change_state` once resolved: lock, gates, side-effects, then
      the target or the failure path, the release, and the hooks. */
  function RunTransition(p: Prog, c: Conn): (r: (Outcome, Conn))
    requires p.Drive?
    ensures Balanced(c, r.1)
    decreases p, 1
  {
    if !c.Healthy() then (Raised(DatabaseError), c)      // the gate's query raises: unlocked again
    else if !p.admitted then (Raised(Ordinary), c)
    else
      var t := c.nextToken;
      var (o, d) := Exec(p.effects, c.(locks := c.locks + {t}, nextToken := t + 1));
      if o.Done? then CompleteTransition(p, t, d)
      else if o.e == NotAnException then (o, d)          // the lock is left to its TTL
      else FailTransition(p, t, o, d)
  }

  function CompleteTransition(p: Prog, t: Token, c: Conn): (r: (Outcome, Conn))
    requires p.Drive?
    ensures Balanced(c, r.1)
    decreases p, 0, 1
  {
    var (o, d) := Statement(p.cell, p.target, c);
    if o.Raised? then (o, d.Release(t))
    else RunCallbacks(p, p.callbacks, d.DeferUnlock(t))
  }

  function FailTransition(p: Prog, t: Token, o: Outcome, c: Conn): (r: (Outcome, Conn))
    requires p.Drive?
    ensures Balanced(c, r.1)
    decreases p, 0, 1
  {
    var (wrote, d) := WriteFailedState(p.cell, p.failed, c);
    var (h, e) := RunCallbacks(p, p.failureCallbacks, if wrote then d.DeferUnlock(t) else d.Release(t));
    (if h == Raised(NotAnException) then h else o, e)
  }

  /** The savepointed `failed_state` write: whether it landed. */
  function WriteFailedState(cell: string, failed: Option<StateWrite>, c: Conn): (r: (bool, Conn))
    ensures Balanced(c, r.1)
  {
    if failed.None? then (false, c)
    else
      var entered := c.Enter();
      if entered.None? then (false, c)
      else
        var (o, d) := Statement(cell, failed.value, entered.value);
        var (left, e) := d.LeaveSavepoint(o, |c.registry|, true);
        (left.Done?, e)
  }
}
