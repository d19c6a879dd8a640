/** The `TransitionMessage` table as the drain and the cleanup sweep see it, and
    the retries its rows have left. */
module Table {
  import opened Messages

  /** The columns of the uniqueness constraint. */
  datatype Key = Key(appLabel: string, modelName: string, instanceId: string, processName: string)

  datatype Entry = Entry(key: Key, queue: string, message: Message)

  /** Attempts an uncompleted row may still be charged. */
  function Left(m: Message, cfg: Config): nat {
    if m.isCompleted || m.errorsCount >= cfg.maxErrors then 0 else cfg.maxErrors - m.errorsCount
  }

  ghost function Budget(rows: map<Pk, Entry>, cfg: Config): nat
    decreases |rows|
  {
    if rows == map[] then 0
    else
      var pk :| pk in rows;
      assert (rows - {pk}).Keys == rows.Keys - {pk};
      assert |rows - {pk}| == |(rows - {pk}).Keys|;
      Left(rows[pk].message, cfg) + Budget(rows - {pk}, cfg)
  }

  /** The budget does not depend on which row is counted first. */
  lemma {:induction false} BudgetOf(rows: map<Pk, Entry>, cfg: Config, pk: Pk)
    requires pk in rows
    ensures Budget(rows, cfg) == Left(rows[pk].message, cfg) + Budget(rows - {pk}, cfg)
    decreases |rows|
  {
    var p :| p in rows && Budget(rows, cfg) == Left(rows[p].message, cfg) + Budget(rows - {p}, cfg);
    if p != pk {
      Smaller(rows, p);
      Smaller(rows, pk);
      BudgetOf(rows - {p}, cfg, pk);
      BudgetOf(rows - {pk}, cfg, p);
      assert rows - {p} - {pk} == rows - {pk} - {p};
    }
  }

  lemma Smaller(rows: map<Pk, Entry>, pk: Pk)
    requires pk in rows
    ensures |rows - {pk}| < |rows|
  {
    assert (rows - {pk}).Keys == rows.Keys - {pk};
    assert |(rows - {pk}).Keys| == |rows.Keys| - 1;
  }

  /** Rows may go and lose retries; the whole budget loses what any one of them loses. */
  lemma {:induction false} BudgetFalls(rows: map<Pk, Entry>, later: map<Pk, Entry>, cfg: Config)
    requires forall pk :: pk in later ==> pk in rows && Left(later[pk].message, cfg) <= Left(rows[pk].message, cfg)
    ensures Budget(later, cfg) <= Budget(rows, cfg)
    decreases |later|
  {
    if later != map[] {
      var pk :| pk in later;
      Smaller(later, pk);
      BudgetOf(later, cfg, pk);
      BudgetOf(rows, cfg, pk);
      BudgetFalls(rows - {pk}, later - {pk}, cfg);
    }
  }

  lemma BudgetFallsAt(rows: map<Pk, Entry>, later: map<Pk, Entry>, cfg: Config, pk: Pk)
    requires forall q :: q in later ==> q in rows && Left(later[q].message, cfg) <= Left(rows[q].message, cfg)
    requires pk in later && Left(later[pk].message, cfg) < Left(rows[pk].message, cfg)
    ensures Budget(later, cfg) < Budget(rows, cfg)
  {
    BudgetOf(later, cfg, pk);
    BudgetOf(rows, cfg, pk);
    BudgetFalls(rows - {pk}, later - {pk}, cfg);
  }
}
