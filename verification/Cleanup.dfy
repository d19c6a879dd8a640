/** `cleanup_completed_transitions`: delete old completed rows, but never the
    newest terminal failure of an instance and process. */
module Cleanup {
  import opened Wrappers
  import opened Messages
  import opened Table

  predicate Failure(e: Entry) {
    e.message.endedInFailure && e.message.isCompleted
  }

  predicate FailureOf(rows: map<Pk, Entry>, pk: Pk, key: Key) {
    pk in rows && Failure(rows[pk]) && rows[pk].key == key
  }

  /** `-completed_at, -pk`, with PostgreSQL's nulls first. */
  predicate Before(a: Option<int>, p: Pk, b: Option<int>, q: Pk) {
    if a == b then p.n > q.n
    else a.None? || (b.Some? && a.value > b.value)
  }

  /** The row the subquery picks for its key. */
  predicate Newest(rows: map<Pk, Entry>, pk: Pk) {
    && pk in rows && Failure(rows[pk])
    && forall q :: q in rows && FailureOf(rows, q, rows[pk].key) && q != pk ==>
         Before(rows[pk].message.completedAt, pk, rows[q].message.completedAt, q)
  }

  predicate Old(e: Entry, cutoff: int) {
    e.message.isCompleted && e.message.modified < cutoff
  }

  function Swept(rows: map<Pk, Entry>, cutoff: int): map<Pk, Entry> {
    map pk | pk in rows && (!Old(rows[pk], cutoff) || Newest(rows, pk)) :: rows[pk]
  }

  /** A key with a failure has a newest one, found among any of them upwards. */
  lemma {:induction false} NewestExists(rows: map<Pk, Entry>, start: Pk, rest: set<Pk>) returns (pk: Pk)
    requires start in rows && Failure(rows[start])
    requires forall q :: FailureOf(rows, q, rows[start].key) && q !in rest && q != start ==>
               Before(rows[start].message.completedAt, start, rows[q].message.completedAt, q)
    ensures Newest(rows, pk) && rows[pk].key == rows[start].key
    decreases |rest|
  {
    if q :| q in rest && FailureOf(rows, q, rows[start].key) && q != start {
      if Before(rows[start].message.completedAt, start, rows[q].message.completedAt, q) {
        pk := NewestExists(rows, start, rest - {q});
      } else {
        pk := NewestExists(rows, q, rest - {q});
      }
    } else {
      pk := start;
    }
  }

  /** A sweep changes nobody's newest failure. */
  lemma NewestAfterSweep(rows: map<Pk, Entry>, cutoff: int, pk: Pk)
    ensures Newest(Swept(rows, cutoff), pk) <==> Newest(rows, pk)
  {
    var later := Swept(rows, cutoff);
    if Newest(later, pk) && !Newest(rows, pk) {
      var best := NewestExists(rows, pk, rows.Keys);
      assert FailureOf(later, best, rows[pk].key);
    }
  }

  /** A later sweep does what both would have done. */
  lemma SweepAbsorbs(rows: map<Pk, Entry>, c1: int, c2: int)
    requires c1 <= c2
    ensures Swept(Swept(rows, c1), c2) == Swept(rows, c2)
  {
    var once := Swept(rows, c1);
    forall pk ensures pk in Swept(once, c2) <==> pk in Swept(rows, c2) {
      NewestAfterSweep(rows, c1, pk);
    }
  }

  ghost function Sweeps(rows: map<Pk, Entry>, cutoffs: seq<int>): map<Pk, Entry>
    decreases |cutoffs|
  {
    if cutoffs == [] then rows else Sweeps(Swept(rows, cutoffs[0]), cutoffs[1..])
  }

  predicate Increasing(cutoffs: seq<int>) {
    forall i, j :: 0 <= i < j < |cutoffs| ==> cutoffs[i] <= cutoffs[j]
  }

  /** Sweeps at increasing times come to one sweep at the last of them. */
  lemma {:induction false} SweepsAreOneSweep(rows: map<Pk, Entry>, cutoffs: seq<int>)
    requires cutoffs != [] && Increasing(cutoffs)
    ensures Sweeps(rows, cutoffs) == Swept(rows, cutoffs[|cutoffs| - 1])
    decreases |cutoffs|
  {
    if |cutoffs| > 1 {
      assert forall i, j :: 0 <= i < j < |cutoffs| - 1 ==> cutoffs[1..][i] == cutoffs[i + 1] && cutoffs[1..][j] == cutoffs[j + 1];
      SweepsAreOneSweep(Swept(rows, cutoffs[0]), cutoffs[1..]);
      SweepAbsorbs(rows, cutoffs[0], cutoffs[|cutoffs| - 1]);
    } else {
      assert cutoffs[1..] == [];
    }
  }

  /** On any table, sweeps at increasing times delete exactly the completed rows
      that are old by the last of them and are nobody's newest failure, leave
      the others untouched, add none, and have nothing left to delete. */
  lemma SweepsDelete(rows: map<Pk, Entry>, cutoffs: seq<int>, pk: Pk)
    requires cutoffs != [] && Increasing(cutoffs)
    ensures var later, last := Sweeps(rows, cutoffs), cutoffs[|cutoffs| - 1];
            && (pk in later <==> pk in rows && !(Old(rows[pk], last) && !Newest(rows, pk)))
            && (pk in later ==> later[pk] == rows[pk])
            && Swept(later, last) == later
  {
    SweepsAreOneSweep(rows, cutoffs);
    SweepAbsorbs(rows, cutoffs[|cutoffs| - 1], cutoffs[|cutoffs| - 1]);
  }
}
