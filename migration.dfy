/**
 * `migrateProgressToStates` (backend/models/database.js): an older `tasks` table kept a
 * numeric `progress` column; on start-up the column `progress_state` is added and
 * filled from it, and `progress` is dropped.
 */
module Migration {
  import opened Sqlite
  import opened Schema

  /** One task row of an old database; a field whose column is absent carries no meaning. */
  datatype LegacyRow = LegacyRow(progress: Cell, state: ProgressState)

  /** The columns `PRAGMA table_info(tasks)` reports, reduced to the two that matter, and the rows. */
  datatype LegacyTasks = LegacyTasks(hasProgressState: bool, hasProgress: bool, rows: map<int, LegacyRow>)

  /**
   * The SQL `CASE` of the migration: 0 is `inicializado`, strictly between 0 and 100 is
   * `en proceso`, 100 is `finalizado`, and anything else, NULL and text included, falls
   * to the `ELSE 'inicializado'` branch (text compares greater than every number). So
   * exactly 1..99 become `en proceso` and exactly 100 becomes `finalizado`.
   */
  function ProgressToState(p: Cell): (g: ProgressState)
    ensures g == EnProceso <==> (p.SInt? && 0 < p.i < 100)
    ensures g == ProgressState.Finalizado <==> p == SInt(100)
    ensures g == Inicializado <==> !(p.SInt? && 0 < p.i <= 100)
  {
    match p
    case SInt(n) =>
      if n == 0 then Inicializado
      else if 0 < n < 100 then EnProceso
      else if n == 100 then ProgressState.Finalizado
      else Inicializado
    case _ => Inicializado
  }

  /**
   * The migration. `dropSucceeds` stands for whether the SQLite build accepts
   * `ALTER TABLE ... DROP COLUMN`; when it does not, only a warning is logged and the
   * `progress` column stays. Afterwards the table has `progress_state` and rows keep
   * their ids; a table that already had the column is untouched; otherwise each row's
   * state comes from its progress if there was a progress column, and is `inicializado`
   * if there was not.
   */
  function Migrate(t: LegacyTasks, dropSucceeds: bool): (m: LegacyTasks)
    ensures m.hasProgressState && m.rows.Keys == t.rows.Keys
    ensures t.hasProgressState ==> m == t
    ensures !t.hasProgressState && t.hasProgress ==>
      m.hasProgress == !dropSucceeds &&
      forall k :: k in t.rows ==> m.rows[k].state == ProgressToState(t.rows[k].progress)
    ensures !t.hasProgressState && !t.hasProgress ==>
      !m.hasProgress && forall k :: k in t.rows ==> m.rows[k].state == Inicializado
  {
    if !t.hasProgressState && t.hasProgress then
      LegacyTasks(true, !dropSucceeds, map k | k in t.rows :: t.rows[k].(state := ProgressToState(t.rows[k].progress)))
    else if !t.hasProgressState then
      LegacyTasks(true, false, map k | k in t.rows :: t.rows[k].(state := Inicializado))
    else
      t
  }

  /** The mapping never goes backwards as progress grows from 0 to 100. */
  lemma ProgressToStateMonotone(a: int, b: int)
    requires 0 <= a <= b <= 100
    ensures Rank(ProgressToState(SInt(a))) <= Rank(ProgressToState(SInt(b)))
  {
  }

  function Rank(g: ProgressState): nat {
    match g
    case Inicializado => 0
    case EnProceso => 1
    case Finalizado => 2
  }

  /** Running the migration a second time, on the next start-up, changes nothing. */
  lemma MigrateIdempotent(t: LegacyTasks, first: bool, second: bool)
    ensures Migrate(Migrate(t, first), second) == Migrate(t, first)
  {
  }
}
