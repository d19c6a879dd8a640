/** A journal of the table: its inserts, row writes and sweeps in order, and what
    they can have made of any row. */
module Journal {
  import opened Wrappers
  import opened Messages
  import opened Table
  import opened Cleanup

  datatype Item =
    | Insert(pk: Pk, key: Key, queue: string, timeout: Option<nat>, at: int)
    | Touch(pk: Pk, op: Op, at: int)
    | Sweep(cutoff: int)

  /** An insert gets a key the sequence has not issued yet; a write is an allowed
      one of a row that is there. */
  predicate Fits(rows: map<Pk, Entry>, issued: set<Pk>, item: Item, cfg: Config) {
    match item
    case Insert(pk, _, _, _, _) => pk !in issued
    case Touch(pk, op, at) => pk in rows && Allowed(rows[pk].message, op, cfg, at)
    case Sweep(_) => true
  }

  function Touched(e: Entry, op: Op, cfg: Config, at: int): Entry {
    e.(message := Write(e.message, op, cfg, at))
  }

  function Inserted(item: Item): Entry
    requires item.Insert?
  {
    Entry(item.key, item.queue, NewMessage(item.timeout, item.at))
  }

  function Done(rows: map<Pk, Entry>, item: Item, cfg: Config): map<Pk, Entry> {
    match item
    case Insert(pk, _, _, _, _) => rows[pk := Inserted(item)]
    case Touch(pk, op, at) => if pk in rows then rows[pk := Touched(rows[pk], op, cfg, at)] else rows
    case Sweep(cutoff) => Swept(rows, cutoff)
  }

  /** What the journal makes of `start`. */
  function Made(start: map<Pk, Entry>, journal: seq<Item>, cfg: Config): map<Pk, Entry>
    decreases |journal|
  {
    if journal == [] then start else Made(Done(start, journal[0], cfg), journal[1..], cfg)
  }

  function Issues(issued: set<Pk>, item: Item): set<Pk> {
    if item.Insert? then issued + {item.pk} else issued
  }

  function Issued(issued: set<Pk>, journal: seq<Item>): set<Pk>
    decreases |journal|
  {
    if journal == [] then issued else Issued(Issues(issued, journal[0]), journal[1..])
  }

  function Clock(item: Item, now: int): int {
    if item.Sweep? then now else item.at
  }

  /** `rows` is what the journal made of `start`, on a clock between `from` and
      `to`; the keys in `issued` were issued before it, those in `start` among them. */
  predicate Replays(start: map<Pk, Entry>, issued: set<Pk>, journal: seq<Item>, rows: map<Pk, Entry>,
                    cfg: Config, from: int, to: int)
    decreases |journal|
  {
    && start.Keys <= issued
    && if journal == [] then rows == start && from <= to
       else
         var item := journal[0];
         && Fits(start, issued, item, cfg)
         && from <= Clock(item, from)
         && Replays(Done(start, item, cfg), Issues(issued, item), journal[1..], rows, cfg, Clock(item, from), to)
  }

  lemma {:induction false} ReplaysMore(start: map<Pk, Entry>, issued: set<Pk>, journal: seq<Item>, rows: map<Pk, Entry>,
                                       item: Item, cfg: Config, from: int, to: int)
    requires Replays(start, issued, journal, rows, cfg, from, to)
    requires Fits(rows, Issued(issued, journal), item, cfg) && Clock(item, to) == to
    ensures Replays(start, issued, journal + [item], Done(rows, item, cfg), cfg, from, to)
    decreases |journal|
  {
    if journal == [] {
      assert [] + [item] == [item];
      assert [item][1..] == [];
    } else {
      var first := journal[0];
      assert (journal + [item])[1..] == journal[1..] + [item];
      ReplaysMore(Done(start, first, cfg), Issues(issued, first), journal[1..], rows, item, cfg, Clock(first, from), to);
    }
  }

  lemma {:induction false} ReplaysLater(start: map<Pk, Entry>, issued: set<Pk>, journal: seq<Item>, rows: map<Pk, Entry>,
                                        cfg: Config, from: int, to: int, later: int)
    requires Replays(start, issued, journal, rows, cfg, from, to) && to <= later
    ensures Replays(start, issued, journal, rows, cfg, from, later)
    decreases |journal|
  {
    if journal != [] {
      var item := journal[0];
      ReplaysLater(Done(start, item, cfg), Issues(issued, item), journal[1..], rows, cfg, Clock(item, from), to, later);
    }
  }

  /** Cut anywhere: what is left of the journal replays from the table there. */
  lemma {:induction false} ReplaysFrom(start: map<Pk, Entry>, issued: set<Pk>, journal: seq<Item>, rows: map<Pk, Entry>,
                                       cfg: Config, from: int, to: int, k: nat)
    returns (issuedThen: set<Pk>, at: int)
    requires Replays(start, issued, journal, rows, cfg, from, to) && k <= |journal|
    ensures from <= at && issued <= issuedThen
    ensures Replays(Made(start, journal[..k], cfg), issuedThen, journal[k..], rows, cfg, at, to)
    decreases |journal|
  {
    if k == 0 {
      assert journal[0..] == journal;
      issuedThen, at := issued, from;
    } else {
      var item := journal[0];
      assert journal[..k][0] == item && journal[..k][1..] == journal[1..][..k - 1] && journal[1..][k - 1..] == journal[k..];
      issuedThen, at := ReplaysFrom(Done(start, item, cfg), Issues(issued, item), journal[1..], rows, cfg, Clock(item, from), to, k - 1);
    }
  }

  /** The writes of one row in a journal. */
  function EventsOf(pk: Pk, journal: seq<Item>): seq<Event>
    decreases |journal|
  {
    if journal == [] then []
    else (if journal[0].Touch? && journal[0].pk == pk then [Event(journal[0].op, journal[0].at)] else [])
         + EventsOf(pk, journal[1..])
  }

  /** A key that is spent is not used again. */
  lemma {:induction false} NoneReturns(start: map<Pk, Entry>, issued: set<Pk>, journal: seq<Item>, rows: map<Pk, Entry>,
                                       cfg: Config, from: int, to: int, pk: Pk)
    requires Replays(start, issued, journal, rows, cfg, from, to) && pk in issued && pk !in start
    ensures pk !in rows && EventsOf(pk, journal) == []
    decreases |journal|
  {
    if journal != [] {
      var item := journal[0];
      NoneReturns(Done(start, item, cfg), Issues(issued, item), journal[1..], rows, cfg, Clock(item, from), to, pk);
    }
  }

  /** The row `pk` of `start` after a journal: what its own allowed writes made of
      it, under the key and queue it had; if it is gone, they had completed it. */
  predicate Follows(e: Entry, pk: Pk, events: seq<Event>, rows: map<Pk, Entry>, cfg: Config, from: int, to: int) {
    && History(e.message, events, cfg, from)
    && End(events, from) <= to
    && var m := After(e.message, events, cfg);
       if pk in rows then rows[pk] == e.(message := m) else m.isCompleted
  }

  lemma {:induction false} StartFollows(start: map<Pk, Entry>, issued: set<Pk>, journal: seq<Item>, rows: map<Pk, Entry>,
                                        cfg: Config, from: int, to: int, pk: Pk)
    requires Replays(start, issued, journal, rows, cfg, from, to) && pk in start
    ensures from <= to && Follows(start[pk], pk, EventsOf(pk, journal), rows, cfg, from, to)
    decreases |journal|
  {
    if journal == [] {
    } else {
      var item, rest := journal[0], journal[1..];
      var next, more, at := Done(start, item, cfg), Issues(issued, item), Clock(item, from);
      if pk in next {
        StartFollows(next, more, rest, rows, cfg, at, to, pk);
      } else {
        NoneReturns(next, more, rest, rows, cfg, at, to, pk);
        ReplaysForward(next, more, rest, rows, cfg, at, to);
      }
      if item.Touch? && item.pk == pk {
        FirstEvent(start[pk].message, Event(item.op, item.at), EventsOf(pk, rest), cfg, from);
        assert EventsOf(pk, journal) == [Event(item.op, item.at)] + EventsOf(pk, rest);
      } else {
        assert EventsOf(pk, journal) == EventsOf(pk, rest);
        if pk in next { LaterStart(start[pk].message, EventsOf(pk, rest), cfg, from, at); }
      }
    }
  }

  lemma {:induction false} ReplaysForward(start: map<Pk, Entry>, issued: set<Pk>, journal: seq<Item>, rows: map<Pk, Entry>,
                                          cfg: Config, from: int, to: int)
    requires Replays(start, issued, journal, rows, cfg, from, to)
    ensures from <= to
    decreases |journal|
  {
    if journal != [] {
      var item := journal[0];
      ReplaysForward(Done(start, item, cfg), Issues(issued, item), journal[1..], rows, cfg, Clock(item, from), to);
    }
  }

  /** From any point of the journal on, every row that is in the table there, be it
      of the start or inserted since, is what its own allowed writes make of it;
      and a row that is gone had completed, and its key stays spent. */
  lemma RowsFollow(start: map<Pk, Entry>, issued: set<Pk>, journal: seq<Item>, rows: map<Pk, Entry>,
                   cfg: Config, from: int, to: int, k: nat, pk: Pk) returns (at: int)
    requires Replays(start, issued, journal, rows, cfg, from, to) && k <= |journal|
    ensures from <= at <= to
    ensures var there := Made(start, journal[..k], cfg);
            && (pk in there ==> Follows(there[pk], pk, EventsOf(pk, journal[k..]), rows, cfg, at, to))
            && (pk in issued && pk !in there ==> pk !in rows)
  {
    var issuedThen;
    issuedThen, at := ReplaysFrom(start, issued, journal, rows, cfg, from, to, k);
    var there := Made(start, journal[..k], cfg);
    ReplaysForward(there, issuedThen, journal[k..], rows, cfg, at, to);
    if pk in there {
      StartFollows(there, issuedThen, journal[k..], rows, cfg, at, to, pk);
    } else if pk in issued {
      NoneReturns(there, issuedThen, journal[k..], rows, cfg, at, to, pk);
    }
  }

  lemma FirstEvent(m: Message, e: Event, events: seq<Event>, cfg: Config, from: int)
    requires from <= e.at && Allowed(m, e.op, cfg, e.at) && History(Write(m, e.op, cfg, e.at), events, cfg, e.at)
    ensures History(m, [e] + events, cfg, from)
    ensures After(m, [e] + events, cfg) == After(Write(m, e.op, cfg, e.at), events, cfg)
    ensures End([e] + events, from) == End(events, e.at)
  {
    assert ([e] + events)[1..] == events;
  }

  lemma LaterStart(m: Message, events: seq<Event>, cfg: Config, from: int, at: int)
    requires from <= at && History(m, events, cfg, at)
    ensures History(m, events, cfg, from) && End(events, from) <= End(events, at)
  {}

  // ----- failures over a journal -----

  lemma BeforeThen(a: Option<int>, p: Pk, b: Option<int>, q: Pk, c: Option<int>, r: Pk)
    requires Before(a, p, b, q) && Before(b, q, c, r)
    ensures Before(a, p, c, r)
  {}

  /** `q` explains the key of `was` at least as recently: it is that very row, or a newer failure. */
  predicate Explains(rows: map<Pk, Entry>, q: Pk, was: Entry, pk: Pk) {
    && FailureOf(rows, q, was.key)
    && ((q == pk && rows[q] == was) || Before(rows[q].message.completedAt, q, was.message.completedAt, pk))
  }

  lemma {:induction false} FailureExplained(start: map<Pk, Entry>, issued: set<Pk>, journal: seq<Item>, rows: map<Pk, Entry>,
                                            cfg: Config, from: int, to: int, pk: Pk)
    returns (q: Pk)
    requires Replays(start, issued, journal, rows, cfg, from, to) && pk in start && Failure(start[pk])
    ensures Explains(rows, q, start[pk], pk)
    decreases |journal|
  {
    if journal == [] {
      q := pk;
    } else {
      var item := journal[0];
      var next, more, at := Done(start, item, cfg), Issues(issued, item), Clock(item, from);
      if pk in next {
        q := FailureExplained(next, more, journal[1..], rows, cfg, at, to, pk);
      } else {
        var best := NewestExists(start, pk, start.Keys);
        assert FailureOf(start, pk, start[best].key) && best != pk;
        q := FailureExplained(next, more, journal[1..], rows, cfg, at, to, best);
        if q != best || rows[q] != start[best] {
          BeforeThen(rows[q].message.completedAt, q, start[best].message.completedAt, best, start[pk].message.completedAt, pk);
        }
      }
    }
  }

  /** A failure recorded at any point of the journal, of a row of the start or of
      one enqueued since: whatever is enqueued, completed and swept after it, it
      is still there, or a newer one of the same instance and process is. */
  lemma FailuresStayExplained(start: map<Pk, Entry>, issued: set<Pk>, journal: seq<Item>, rows: map<Pk, Entry>,
                              cfg: Config, from: int, to: int, k: nat, pk: Pk)
    returns (q: Pk)
    requires Replays(start, issued, journal, rows, cfg, from, to) && k <= |journal|
    requires var there := Made(start, journal[..k], cfg); pk in there && Failure(there[pk])
    ensures Explains(rows, q, Made(start, journal[..k], cfg)[pk], pk)
  {
    var issuedThen, at := ReplaysFrom(start, issued, journal, rows, cfg, from, to, k);
    q := FailureExplained(Made(start, journal[..k], cfg), issuedThen, journal[k..], rows, cfg, at, to, pk);
  }

  /** The newest failure ever recorded for an instance and process is still
      there, unchanged, after any inserts, writes and sweeps. */
  lemma NewestFailureEverStays(start: map<Pk, Entry>, issued: set<Pk>, journal: seq<Item>, rows: map<Pk, Entry>,
                               cfg: Config, from: int, to: int, k: nat, pk: Pk)
    requires Replays(start, issued, journal, rows, cfg, from, to) && k <= |journal|
    requires var there := Made(start, journal[..k], cfg); pk in there && Failure(there[pk])
    requires var was := Made(start, journal[..k], cfg)[pk];
             forall q :: FailureOf(rows, q, was.key) ==> !Before(rows[q].message.completedAt, q, was.message.completedAt, pk)
    ensures pk in rows && rows[pk] == Made(start, journal[..k], cfg)[pk]
  {
    var q := FailuresStayExplained(start, issued, journal, rows, cfg, from, to, k, pk);
  }
}
