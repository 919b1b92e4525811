/**
 * The three tables of the tracker (`users`, `tasks`, `updates`) as maps from row id to
 * row plus one AUTOINCREMENT counter each, the column DEFAULT, NOT NULL, CHECK and
 * UNIQUE rules, and the write statements the models issue through `db.run`.
 */
module Schema {
  import opened Js
  import opened Wrappers
  import opened Sqlite
  import opened Text
  import opened Messages

  // ---------------------------------------------------------------------------
  // Enumerations restricted by CHECK constraints

  datatype Role = Admin | Trabajador
  datatype Status = Activo | Inactivo | Finalizado
  datatype Priority = Baja | Media | Alta
  datatype ProgressState = Inicializado | EnProceso | Finalizado

  function RoleName(r: Role): string {
    match r
    case Admin => "admin"
    case Trabajador => "trabajador"
  }

  function StatusName(s: Status): string {
    match s
    case Activo => "activo"
    case Inactivo => "inactivo"
    case Finalizado => "finalizado"
  }

  function PriorityName(p: Priority): string {
    match p
    case Baja => "baja"
    case Media => "media"
    case Alta => "alta"
  }

  function ProgressName(p: ProgressState): string {
    match p
    case Inicializado => "inicializado"
    case EnProceso => "en proceso"
    case Finalizado => "finalizado"
  }

  /** `['admin', 'trabajador'].includes(v)`, and the role `v` then names. */
  function ParseRole(v: Value): (r: Option<Role>)
    ensures r.Some? ==> v == Str(RoleName(r.value))
  {
    if v == Str("admin") then Some(Admin)
    else if v == Str("trabajador") then Some(Trabajador)
    else None
  }

  /** `['activo', 'inactivo', 'finalizado'].includes(v)`, and the status `v` then names. */
  function ParseStatus(v: Value): (r: Option<Status>)
    ensures r.Some? ==> v == Str(StatusName(r.value))
  {
    if v == Str("activo") then Some(Activo)
    else if v == Str("inactivo") then Some(Inactivo)
    else if v == Str("finalizado") then Some(Status.Finalizado)
    else None
  }

  /** `['baja', 'media', 'alta'].includes(v)`, and the priority `v` then names. */
  function ParsePriority(v: Value): (r: Option<Priority>)
    ensures r.Some? ==> v == Str(PriorityName(r.value))
  {
    if v == Str("baja") then Some(Baja)
    else if v == Str("media") then Some(Media)
    else if v == Str("alta") then Some(Alta)
    else None
  }

  /** `['inicializado', 'en proceso', 'finalizado'].includes(v)`, and the state `v` then names. */
  function ParseProgress(v: Value): (r: Option<ProgressState>)
    ensures r.Some? ==> v == Str(ProgressName(r.value))
  {
    if v == Str("inicializado") then Some(Inicializado)
    else if v == Str("en proceso") then Some(EnProceso)
    else if v == Str("finalizado") then Some(ProgressState.Finalizado)
    else None
  }

  /** Every enumeration value is accepted under its own name. */
  lemma NamesParse(r: Role, s: Status, p: Priority, g: ProgressState)
    ensures ParseRole(Str(RoleName(r))) == Some(r)
    ensures ParseStatus(Str(StatusName(s))) == Some(s)
    ensures ParsePriority(Str(PriorityName(p))) == Some(p)
    ensures ParseProgress(Str(ProgressName(g))) == Some(g)
  {
  }

  /** The text of a number never starts with a letter. */
  lemma DecimalStartsNumeric(n: int)
    ensures DecimalString(n)[0] == '-' || IsDigit(DecimalString(n)[0])
  {
  }

  /**
   * The CHECK constraints see the value after TEXT affinity has turned a number into
   * its text; they accept exactly what the models' `includes` checks accept.
   */
  lemma CheckAgreesWithIncludes(v: Value)
    ensures ParseRole(ToJs(TextAffinity(v))) == ParseRole(v)
    ensures ParseStatus(ToJs(TextAffinity(v))) == ParseStatus(v)
    ensures ParsePriority(ToJs(TextAffinity(v))) == ParsePriority(v)
    ensures ParseProgress(ToJs(TextAffinity(v))) == ParseProgress(v)
  {
    if v.Num? {
      DecimalStartsNumeric(v.n);
    }
  }

  // ---------------------------------------------------------------------------
  // Rows and tables

  /** A `users` row: `name TEXT NOT NULL UNIQUE`, `role` CHECKed, `created_at`. */
  datatype UserRow = UserRow(name: string, role: Role, createdAt: nat)

  /** A `tasks` row; `title` is NOT NULL, the three enumerations are NOT NULL and CHECKed. */
  datatype TaskRow = TaskRow(
    title: string,
    description: Cell,
    status: Status,
    priority: Priority,
    assignedTo: Cell,
    createdBy: Cell,
    createdAt: nat,
    updatedAt: nat,
    dueDate: Cell,
    progress: ProgressState)

  /** An `updates` row; `progress_state` may be NULL but is CHECKed otherwise. */
  datatype UpdateRow = UpdateRow(taskId: int, userId: Cell, comment: Cell, progress: Option<ProgressState>, timestamp: nat)

  /**
   * The database. `lastRowId` is what the connection's `lastID` reports: the id of the
   * most recent successful INSERT.
   */
  datatype Tables = Tables(
    users: map<int, UserRow>,
    tasks: map<int, TaskRow>,
    updates: map<int, UpdateRow>,
    userSeq: nat,
    taskSeq: nat,
    updateSeq: nat,
    lastRowId: int)

  const Empty := Tables(map[], map[], map[], 0, 0, 0, 0)

  /** A COUNT over some of a table's rows is at most the number of rows. */
  lemma SubsetCard(small: set<int>, big: set<int>)
    requires small <= big
    ensures |small| <= |big|
  {
    assert big == small + (big - small);
  }

  predicate UniqueNames(users: map<int, UserRow>) {
    forall j, k :: j in users && k in users && users[j].name == users[k].name ==> j == k
  }

  /**
   * What the schema guarantees of every reachable database: ids come from the
   * AUTOINCREMENT counters, names are unique, `created_by` and `user_id` are NOT NULL,
   * and every update belongs to an existing task (`ON DELETE CASCADE`, which this model
   * performs and the connection as written does not; `OrphansUnseen` shows the difference
   * cannot be observed). The next id each AUTOINCREMENT counter hands out is free.
   */
  predicate Wellformed(t: Tables)
    ensures Wellformed(t) ==> t.userSeq + 1 !in t.users && t.taskSeq + 1 !in t.tasks && t.updateSeq + 1 !in t.updates
  {
    (forall k :: k in t.users ==> 0 < k <= t.userSeq) &&
    (forall k :: k in t.tasks ==> 0 < k <= t.taskSeq) &&
    (forall k :: k in t.updates ==> 0 < k <= t.updateSeq) &&
    UniqueNames(t.users) &&
    (forall k :: k in t.tasks ==> t.tasks[k].createdBy != SNull) &&
    (forall k :: k in t.updates ==> t.updates[k].taskId in t.tasks && t.updates[k].userId != SNull)
  }

  /** The row id a parameter selects in a table, if any. */
  function Selected<R>(rows: map<int, R>, id: Value): (k: Option<int>)
    ensures k.Some? <==> exists key :: key in rows && KeyMatches(key, id)
    ensures k.Some? ==> k.value in rows && KeyMatches(k.value, id)
  {
    match IntegerAffinity(id)
    case SInt(key) => if key in rows then Some(key) else None
    case _ => None
  }

  predicate NameTaken(users: map<int, UserRow>, name: string) {
    exists k :: k in users && users[k].name == name
  }

  /** `WHERE name = ?` on the unique `name` column. */
  function UserNamed(users: map<int, UserRow>, name: Value): (k: Option<int>)
    requires UniqueNames(users)
    ensures k.Some? <==> (TextAffinity(name).SText? && NameTaken(users, TextAffinity(name).t))
    ensures k.Some? ==> k.value in users && TextAffinity(name) == SText(users[k.value].name)
  {
    var c := TextAffinity(name);
    if c.SText? && NameTaken(users, c.t) then
      var k :| k in users && users[k].name == c.t; Some(k)
    else None
  }

  // ---------------------------------------------------------------------------
  // Driver error messages

  const ConstraintPieces: seq<string> := ["SQLITE_", "CONSTRAINT: "]

  /** The column a constraint names, as `table.` and `column` pieces. */
  datatype ColumnName = ColumnName(table: string, column: string)

  function NotNullFailed(c: ColumnName): string {
    Concat(ConstraintPieces + ["NOT NULL ", "constraint ", "failed: ", c.table, c.column])
  }

  /** The CHECK constraints of the schema: one on `users`, three on `tasks`, one on `updates`. */
  datatype Check = RoleCheck | StatusCheck | PriorityCheck | ProgressCheck

  /**
   * The expression of a CHECK constraint as the CREATE TABLE statements write it, in
   * pieces. A constraint without a name of its own is named by this text in SQLite's
   * message. `tasks.progress_state` and `updates.progress_state` share one expression.
   */
  function CheckExpression(c: Check): seq<string> {
    match c
    case RoleCheck => ["role ", "IN ", "('ad", "min', ", "'trab", "ajador')"]
    case StatusCheck => ["status ", "IN ", "('act", "ivo', ", "'inac", "tivo', ", "'fina", "lizado')"]
    case PriorityCheck => ["priority ", "IN ", "('baja', ", "'media', ", "'alta')"]
    case ProgressCheck => ["progress_", "state ", "IN ", "('inic", "iali", "zado', ", "'en ", "proc", "eso', ", "'fina", "lizado')"]
  }

  /** A CHECK failure, whose message never reads as "not found". */
  function CheckFailed(c: Check): (m: string)
    ensures !Includes(m, "not found")
  {
    CheckPieces(c);
    CleanExcludes(ConstraintPieces + ["CHECK ", "constraint ", "failed: "] + CheckExpression(c), "not found");
    Concat(ConstraintPieces + ["CHECK ", "constraint ", "failed: "] + CheckExpression(c))
  }

  /** A CHECK failure is assembled from pieces none of which can start a copy of "not found". */
  lemma CheckPieces(k: Check)
    ensures Clean(ConstraintPieces + ["CHECK ", "constraint ", "failed: "] + CheckExpression(k), "not found")
  {
    SqliteKindsAvoidNotFound();
    ConstraintFailedTasksAvoidNotFound();
    ConstraintCodeAvoidsNotFound();
    CheckExpressionClean(k);
  }

  lemma CheckExpressionClean(k: Check)
    ensures Clean(CheckExpression(k), "not found")
  {
    match k
    case RoleCheck => RoleExpressionClean();
    case StatusCheck => StatusExpressionClean();
    case PriorityCheck => PriorityExpressionClean();
    case ProgressCheck => ProgressExpressionClean();
  }

  lemma RoleExpressionClean()
    ensures Clean(CheckExpression(RoleCheck), "not found")
  {
    RoleCheckHeadAvoidsNotFound();
    RoleTailStatusHeadAvoidNotFound();
  }

  lemma StatusExpressionClean()
    ensures Clean(CheckExpression(StatusCheck), "not found")
  {
    RoleCheckHeadAvoidsNotFound();
    RoleTailStatusHeadAvoidNotFound();
    StatusListAvoidsNotFound();
    FinalizadoPriorityHeadAvoidNotFound();
  }

  lemma PriorityExpressionClean()
    ensures Clean(CheckExpression(PriorityCheck), "not found")
  {
    RoleCheckHeadAvoidsNotFound();
    FinalizadoPriorityHeadAvoidNotFound();
    PriorityTailProgressHeadAvoidNotFound();
  }

  lemma ProgressExpressionClean()
    ensures Clean(CheckExpression(ProgressCheck), "not found")
  {
    var front := ["progress_", "state ", "IN ", "('inic", "iali"];
    var back := ["zado', ", "'en ", "proc", "eso', ", "'fina", "lizado')"];
    assert CheckExpression(ProgressCheck) == front + back;
    assert Clean(front, "not found") by {
      RoleCheckHeadAvoidsNotFound();
      PriorityTailProgressHeadAvoidNotFound();
      InicializadoWordsAvoidNotFound();
    }
    assert Clean(back, "not found") by {
      StatusListAvoidsNotFound();
      FinalizadoPriorityHeadAvoidNotFound();
      InicializadoWordsAvoidNotFound();
      EnProcesoWordsAvoidNotFound();
    }
    CleanAppend(front, back, "not found");
  }

  function UniqueFailed(c: ColumnName): string {
    Concat(ConstraintPieces + ["UNIQUE ", "constraint ", "failed: ", c.table, c.column])
  }

  /** The result of one write statement: the database afterwards and what `run` settles with. */
  datatype Exec = Exec(after: Tables, result: Result<RunResult>)

  /** The result of one model operation: the database afterwards and what the promise settles with. */
  datatype Step<T> = Step(after: Tables, result: Result<T>)

  // ---------------------------------------------------------------------------
  // users

  /** `INSERT INTO users (name, role) VALUES (?, ?)` */
  function InsertUserRow(t: Tables, name: Value, role: Value, now: nat): (e: Exec)
    ensures e.after.tasks == t.tasks && e.after.updates == t.updates
    ensures e.result.Err? ==> e.after == t
    ensures e.result.Ok? ==> e.result.value == RunResult(t.userSeq + 1, 1) && e.after.userSeq == t.userSeq + 1 &&
                             e.after.users.Keys == t.users.Keys + {t.userSeq + 1}
  {
    var n := TextAffinity(name);
    var r := TextAffinity(role);
    if n == SNull then Exec(t, Err(NotNullFailed(ColumnName("users.", "name"))))
    else if r == SNull then Exec(t, Err(NotNullFailed(ColumnName("users.", "role"))))
    else if ParseRole(ToJs(r)).None? then Exec(t, Err(CheckFailed(RoleCheck)))
    else if NameTaken(t.users, n.t) then Exec(t, Err(UniqueFailed(ColumnName("users.", "name"))))
    else
      var id := t.userSeq + 1;
      Exec(t.(users := t.users[id := UserRow(n.t, ParseRole(ToJs(r)).value, now)], userSeq := id, lastRowId := id),
           Ok(RunResult(id, 1)))
  }

  /** `UPDATE users SET name = ?, role = ? WHERE id = ?` */
  function UpdateUserRow(t: Tables, id: Value, name: Value, role: Value): (e: Exec)
    ensures e.after.tasks == t.tasks && e.after.updates == t.updates && e.after.users.Keys == t.users.Keys
    ensures e.result.Err? ==> e.after == t
    ensures Selected(t.users, id).None? ==> e == Exec(t, Ok(RunResult(t.lastRowId, 0)))
  {
    match Selected(t.users, id)
    case None => Exec(t, Ok(RunResult(t.lastRowId, 0)))
    case Some(k) =>
      var n := TextAffinity(name);
      var r := TextAffinity(role);
      if n == SNull then Exec(t, Err(NotNullFailed(ColumnName("users.", "name"))))
      else if r == SNull then Exec(t, Err(NotNullFailed(ColumnName("users.", "role"))))
      else if ParseRole(ToJs(r)).None? then Exec(t, Err(CheckFailed(RoleCheck)))
      else if NameTaken(t.users - {k}, n.t) then Exec(t, Err(UniqueFailed(ColumnName("users.", "name"))))
      else
        Exec(t.(users := t.users[k := t.users[k].(name := n.t, role := ParseRole(ToJs(r)).value)]),
             Ok(RunResult(t.lastRowId, 1)))
  }

  /** `DELETE FROM users WHERE id = ?`. Foreign keys are not enforced, so nothing else changes. */
  function DeleteUserRow(t: Tables, id: Value): (e: Exec)
    ensures e.result.Ok? && e.after.tasks == t.tasks && e.after.updates == t.updates
    ensures e.after.users.Keys <= t.users.Keys
    ensures e.result.value.changes == 0 ==> e.after == t
  {
    match Selected(t.users, id)
    case None => Exec(t, Ok(RunResult(t.lastRowId, 0)))
    case Some(k) => Exec(t.(users := t.users - {k}), Ok(RunResult(t.lastRowId, 1)))
  }

  // ---------------------------------------------------------------------------
  // tasks

  /** A column of `tasks` that `Task.update` may assign. */
  datatype TaskColumn = TitleCol | DescriptionCol | StatusCol | PriorityCol | AssignedToCol | DueDateCol | ProgressCol

  function TaskColumnName(c: TaskColumn): ColumnName {
    match c
    case TitleCol => ColumnName("tasks.", "title")
    case DescriptionCol => ColumnName("tasks.", "description")
    case StatusCol => ColumnName("tasks.", "status")
    case PriorityCol => ColumnName("tasks.", "priority")
    case AssignedToCol => ColumnName("tasks.", "assigned_to")
    case DueDateCol => ColumnName("tasks.", "due_date")
    case ProgressCol => ColumnName("tasks.", "progress_state")
  }

  /** The cell a task row holds in a column. */
  function CellOf(row: TaskRow, c: TaskColumn): Cell {
    match c
    case TitleCol => SText(row.title)
    case DescriptionCol => row.description
    case StatusCol => SText(StatusName(row.status))
    case PriorityCol => SText(PriorityName(row.priority))
    case AssignedToCol => row.assignedTo
    case DueDateCol => row.dueDate
    case ProgressCol => SText(ProgressName(row.progress))
  }

  /** The affinity of a column: `assigned_to` is INTEGER and `due_date` is DATE; the rest are TEXT. */
  function Affinity(c: TaskColumn, v: Value): Cell {
    if c == AssignedToCol || c == DueDateCol then IntegerAffinity(v) else TextAffinity(v)
  }

  /** One `column = ?` of an UPDATE's SET list. */
  datatype Assignment = Assignment(column: TaskColumn, value: Value)

  /** The two kinds of column constraint an assignment to `tasks` can break. */
  datatype ConstraintKind = NotNullKind | CheckKind

  /**
   * Whether an assigned value breaks a constraint of its column: NULL into one of the
   * NOT NULL columns, or a text that a column's CHECK list does not hold.
   */
  predicate Breaks(a: Assignment, k: ConstraintKind) {
    var text := TextAffinity(a.value);
    match k
    case NotNullKind => a.column in {TitleCol, StatusCol, PriorityCol, ProgressCol} && text == SNull
    case CheckKind =>
      text != SNull &&
      match a.column
      case StatusCol => ParseStatus(ToJs(text)).None?
      case PriorityCol => ParsePriority(ToJs(text)).None?
      case ProgressCol => ParseProgress(ToJs(text)).None?
      case _ => false
  }

  /** The CHECK constraint of a column that has one. */
  function CheckOf(c: TaskColumn): Check
    requires c in {StatusCol, PriorityCol, ProgressCol}
  {
    match c
    case StatusCol => StatusCheck
    case PriorityCol => PriorityCheck
    case ProgressCol => ProgressCheck
  }

  /** Stores a value that breaks no constraint into its column. */
  function Stored(row: TaskRow, a: Assignment): TaskRow
    requires !Breaks(a, NotNullKind) && !Breaks(a, CheckKind)
  {
    var text := TextAffinity(a.value);
    match a.column
    case TitleCol => row.(title := text.t)
    case DescriptionCol => row.(description := text)
    case StatusCol => row.(status := ParseStatus(ToJs(text)).value)
    case PriorityCol => row.(priority := ParsePriority(ToJs(text)).value)
    case AssignedToCol => row.(assignedTo := IntegerAffinity(a.value))
    case DueDateCol => row.(dueDate := IntegerAffinity(a.value))
    case ProgressCol => row.(progress := ParseProgress(ToJs(text)).value)
  }

  /** Stores one assigned value into a row, or names the constraint it breaks, NOT NULL first. */
  function Assign(row: TaskRow, a: Assignment): Result<TaskRow> {
    if Breaks(a, NotNullKind) then Err(NotNullFailed(TaskColumnName(a.column)))
    else if Breaks(a, CheckKind) then Err(CheckFailed(CheckOf(a.column)))
    else Ok(Stored(row, a))
  }

  /**
   * The place of a column among the columns `CREATE TABLE tasks` declares (`id` is 0,
   * `created_by`, `created_at` and `updated_at` are 6 to 8). A column that the migration
   * adds is appended, so `progress_state` is last either way.
   */
  function DeclaredPlace(c: TaskColumn): nat {
    match c
    case TitleCol => 1
    case DescriptionCol => 2
    case StatusCol => 3
    case PriorityCol => 4
    case AssignedToCol => 5
    case DueDateCol => 9
    case ProgressCol => 10
  }

  /** The first column, in declared order, that some assignment of the SET list breaks in the way `k` names. */
  function FirstBroken(sets: seq<Assignment>, k: ConstraintKind): (r: Option<TaskColumn>)
    ensures r.None? <==> forall i :: 0 <= i < |sets| ==> !Breaks(sets[i], k)
    ensures r.Some? ==> exists i :: 0 <= i < |sets| && Breaks(sets[i], k) && sets[i].column == r.value
    ensures r.Some? ==> forall i :: 0 <= i < |sets| && Breaks(sets[i], k) ==> DeclaredPlace(r.value) <= DeclaredPlace(sets[i].column)
    decreases |sets|
  {
    if sets == [] then None
    else
      var rest := FirstBroken(sets[1..], k);
      assert forall i :: 1 <= i < |sets| ==> sets[i] == sets[1..][i - 1];
      if Breaks(sets[0], k) && (rest.None? || DeclaredPlace(sets[0].column) <= DeclaredPlace(rest.value)) then Some(sets[0].column)
      else rest
  }

  /** Applies a SET list left to right, each assignment to the row the previous ones left. */
  function ApplyAll(row: TaskRow, sets: seq<Assignment>): (r: Result<TaskRow>)
    ensures r.Ok? ==> r.value.createdBy == row.createdBy && r.value.createdAt == row.createdAt
    decreases |sets|
  {
    if sets == [] then Ok(row)
    else match Assign(row, sets[0])
      case Err(m) => Err(m)
      case Ok(r) => ApplyAll(r, sets[1..])
  }

  /**
   * The SET list of an UPDATE as SQLite checks it: the NOT NULL constraints of all assigned
   * columns first, in declared order, then their CHECK constraints in declared order; the
   * first violation aborts the statement. Otherwise the values are stored.
   */
  function AssignAll(row: TaskRow, sets: seq<Assignment>): (r: Result<TaskRow>)
    ensures r.Ok? ==> r.value.createdBy == row.createdBy && r.value.createdAt == row.createdAt
  {
    match FirstBroken(sets, NotNullKind)
    case Some(c) => Err(NotNullFailed(TaskColumnName(c)))
    case None =>
      match FirstBroken(sets, CheckKind)
      case Some(c) => Err(CheckFailed(CheckOf(c)))
      case None => ApplyAll(row, sets)
  }

  /**
   * The error a refused SET list reports when several assignments break constraints: a NULL
   * in a NOT NULL column wins over any CHECK violation, and among violations of one kind the
   * column declared first is named.
   */
  lemma AssignAllReports(row: TaskRow, sets: seq<Assignment>)
    ensures (exists i :: 0 <= i < |sets| && Breaks(sets[i], NotNullKind)) ==>
      exists i :: 0 <= i < |sets| && Breaks(sets[i], NotNullKind) &&
        AssignAll(row, sets) == Err(NotNullFailed(TaskColumnName(sets[i].column))) &&
        forall j :: 0 <= j < |sets| && Breaks(sets[j], NotNullKind) ==> DeclaredPlace(sets[i].column) <= DeclaredPlace(sets[j].column)
    ensures (forall i :: 0 <= i < |sets| ==> !Breaks(sets[i], NotNullKind)) && (exists i :: 0 <= i < |sets| && Breaks(sets[i], CheckKind)) ==>
      exists i :: 0 <= i < |sets| && Breaks(sets[i], CheckKind) && sets[i].column in {StatusCol, PriorityCol, ProgressCol} &&
        AssignAll(row, sets) == Err(CheckFailed(CheckOf(sets[i].column))) &&
        forall j :: 0 <= j < |sets| && Breaks(sets[j], CheckKind) ==> DeclaredPlace(sets[i].column) <= DeclaredPlace(sets[j].column)
  {
    match FirstBroken(sets, NotNullKind)
    case Some(c) =>
      var i :| 0 <= i < |sets| && Breaks(sets[i], NotNullKind) && sets[i].column == c;
    case None =>
      match FirstBroken(sets, CheckKind)
      case Some(c) =>
        var i :| 0 <= i < |sets| && Breaks(sets[i], CheckKind) && sets[i].column == c;
      case None =>
  }

  /**
   * `{status: "", priority: null}` breaks the status CHECK and the priority NOT NULL; the
   * statement reports the NOT NULL constraint although `status` comes first in the SET list.
   */
  lemma NullPriorityBeforeBadStatus(row: TaskRow)
    ensures AssignAll(row, [Assignment(StatusCol, Str("")), Assignment(PriorityCol, Null)]) ==
      Err(NotNullFailed(TaskColumnName(PriorityCol)))
  {
    var sets := [Assignment(StatusCol, Str("")), Assignment(PriorityCol, Null)];
    assert Breaks(sets[1], NotNullKind);
    assert !Breaks(sets[0], NotNullKind);
  }

  /** An assignment that is accepted stores the value under the column's affinity and touches no other column. */
  lemma AssignEffect(row: TaskRow, a: Assignment)
    requires Assign(row, a).Ok?
    ensures var r := Assign(row, a).value;
      CellOf(r, a.column) == Affinity(a.column, a.value) &&
      (forall c :: c != a.column ==> CellOf(r, c) == CellOf(row, c)) &&
      r.createdBy == row.createdBy && r.createdAt == row.createdAt && r.updatedAt == row.updatedAt
  {
  }

  /** An assignment is refused exactly when the value is NULL for a NOT NULL column or fails a CHECK. */
  lemma AssignRefused(row: TaskRow, a: Assignment)
    ensures Assign(row, a).Err? <==>
      (a.column in {TitleCol, StatusCol, PriorityCol, ProgressCol} && TextAffinity(a.value) == SNull) ||
      (a.column == StatusCol && TextAffinity(a.value) != SNull && ParseStatus(a.value).None?) ||
      (a.column == PriorityCol && TextAffinity(a.value) != SNull && ParsePriority(a.value).None?) ||
      (a.column == ProgressCol && TextAffinity(a.value) != SNull && ParseProgress(a.value).None?)
  {
    CheckAgreesWithIncludes(a.value);
  }

  predicate DistinctColumns(sets: seq<Assignment>) {
    forall i, j :: 0 <= i < j < |sets| ==> sets[i].column != sets[j].column
  }

  /** A SET list that passes every constraint is stored by `ApplyAll`. */
  lemma {:induction false} Applied(row: TaskRow, sets: seq<Assignment>)
    requires forall i :: 0 <= i < |sets| ==> !Breaks(sets[i], NotNullKind) && !Breaks(sets[i], CheckKind)
    ensures AssignAll(row, sets) == ApplyAll(row, sets) && ApplyAll(row, sets).Ok?
    decreases |sets|
  {
    if sets != [] {
      assert forall i :: 1 <= i < |sets| ==> sets[i] == sets[1..][i - 1];
      Applied(Stored(row, sets[0]), sets[1..]);
    }
  }

  lemma {:induction false} ApplyAllEffect(row: TaskRow, sets: seq<Assignment>)
    requires DistinctColumns(sets) && ApplyAll(row, sets).Ok?
    ensures var r := ApplyAll(row, sets).value;
      (forall i :: 0 <= i < |sets| ==> CellOf(r, sets[i].column) == Affinity(sets[i].column, sets[i].value)) &&
      (forall c :: (forall i :: 0 <= i < |sets| ==> sets[i].column != c) ==> CellOf(r, c) == CellOf(row, c)) &&
      r.updatedAt == row.updatedAt
    decreases |sets|
  {
    if sets != [] {
      var first := Assign(row, sets[0]).value;
      AssignEffect(row, sets[0]);
      ApplyAllEffect(first, sets[1..]);
      var r := ApplyAll(row, sets).value;
      assert r == ApplyAll(first, sets[1..]).value;
      forall i | 0 <= i < |sets| ensures CellOf(r, sets[i].column) == Affinity(sets[i].column, sets[i].value) {
        if i == 0 {
          assert forall j :: 0 <= j < |sets[1..]| ==> sets[1..][j].column != sets[0].column by {
            forall j | 0 <= j < |sets[1..]| ensures sets[1..][j].column != sets[0].column {
              assert sets[1..][j] == sets[j + 1];
            }
          }
        } else {
          assert sets[i] == sets[1..][i - 1];
        }
      }
      forall c | forall i :: 0 <= i < |sets| ==> sets[i].column != c ensures CellOf(r, c) == CellOf(row, c) {
        assert sets[0].column != c;
        assert forall j :: 0 <= j < |sets[1..]| ==> sets[1..][j].column != c by {
          forall j | 0 <= j < |sets[1..]| ensures sets[1..][j].column != c {
            assert sets[1..][j] == sets[j + 1];
          }
        }
      }
    }
  }

  /**
   * A SET list with distinct columns that is accepted leaves every assigned column
   * holding its value and every other column as it was.
   */
  lemma AssignAllEffect(row: TaskRow, sets: seq<Assignment>)
    requires DistinctColumns(sets) && AssignAll(row, sets).Ok?
    ensures var r := AssignAll(row, sets).value;
      (forall i :: 0 <= i < |sets| ==> CellOf(r, sets[i].column) == Affinity(sets[i].column, sets[i].value)) &&
      (forall c :: (forall i :: 0 <= i < |sets| ==> sets[i].column != c) ==> CellOf(r, c) == CellOf(row, c)) &&
      r.updatedAt == row.updatedAt
  {
    Applied(row, sets);
    ApplyAllEffect(row, sets);
  }

  /** `SET progress_state = ?` with a value its CHECK accepts stores that state and nothing else. */
  lemma ProgressAssigned(row: TaskRow, v: Value)
    requires ParseProgress(v).Some?
    ensures AssignAll(row, [Assignment(ProgressCol, v)]) == Ok(row.(progress := ParseProgress(v).value))
  {
    CheckAgreesWithIncludes(v);
    Applied(row, [Assignment(ProgressCol, v)]);
  }

  /** A SET list is refused exactly when one of its assignments is. */
  lemma AssignAllRefused(row: TaskRow, sets: seq<Assignment>)
    ensures AssignAll(row, sets).Err? <==> exists i :: 0 <= i < |sets| && Assign(row, sets[i]).Err?
  {
    if forall i :: 0 <= i < |sets| ==> !Breaks(sets[i], NotNullKind) && !Breaks(sets[i], CheckKind) {
      Applied(row, sets);
    }
  }

  /**
   * `INSERT INTO tasks (title, description, priority, assigned_to, created_by, due_date)`;
   * `status` and `progress_state` take their defaults and both timestamps are `now`.
   */
  function InsertTaskRow(t: Tables, title: Value, description: Value, priority: Value, assignedTo: Value,
                         createdBy: Value, dueDate: Value, now: nat): (e: Exec)
    ensures e.after.users == t.users && e.after.updates == t.updates
    ensures e.result.Err? ==> e.after == t
    ensures e.result.Ok? ==> e.result.value == RunResult(t.taskSeq + 1, 1) && e.after.taskSeq == t.taskSeq + 1 &&
                             e.after.tasks.Keys == t.tasks.Keys + {t.taskSeq + 1}
  {
    var ti := TextAffinity(title);
    var pr := TextAffinity(priority);
    var creator := IntegerAffinity(createdBy);
    if ti == SNull then Exec(t, Err(NotNullFailed(TaskColumnName(TitleCol))))
    else if pr == SNull then Exec(t, Err(NotNullFailed(TaskColumnName(PriorityCol))))
    else if creator == SNull then Exec(t, Err(NotNullFailed(ColumnName("tasks.", "created_by"))))
    else if ParsePriority(ToJs(pr)).None? then Exec(t, Err(CheckFailed(PriorityCheck)))
    else
      var id := t.taskSeq + 1;
      var row := TaskRow(ti.t, TextAffinity(description), Activo, ParsePriority(ToJs(pr)).value,
                         IntegerAffinity(assignedTo), creator, now, now, IntegerAffinity(dueDate), Inicializado);
      Exec(t.(tasks := t.tasks[id := row], taskSeq := id, lastRowId := id), Ok(RunResult(id, 1)))
  }

  /** `UPDATE tasks SET <sets>, updated_at = CURRENT_TIMESTAMP WHERE id = ?` */
  function UpdateTaskRow(t: Tables, id: Value, sets: seq<Assignment>, now: nat): (e: Exec)
    ensures e.after.users == t.users && e.after.updates == t.updates && e.after.tasks.Keys == t.tasks.Keys
    ensures e.result.Err? ==> e.after == t
    ensures Selected(t.tasks, id).None? ==> e == Exec(t, Ok(RunResult(t.lastRowId, 0)))
  {
    match Selected(t.tasks, id)
    case None => Exec(t, Ok(RunResult(t.lastRowId, 0)))
    case Some(k) =>
      match AssignAll(t.tasks[k], sets)
      case Err(m) => Exec(t, Err(m))
      case Ok(row) => Exec(t.(tasks := t.tasks[k := row.(updatedAt := now)]), Ok(RunResult(t.lastRowId, 1)))
  }

  /** The updates that belong to task `k`. */
  function UpdatesOf(updates: map<int, UpdateRow>, k: int): set<int> {
    set u | u in updates && updates[u].taskId == k
  }

  /** `DELETE FROM tasks WHERE id = ?`, removing the task's updates with it (`ON DELETE CASCADE`). */
  function DeleteTaskRow(t: Tables, id: Value): (e: Exec)
    ensures e.result.Ok? && e.after.users == t.users
    ensures e.after.tasks.Keys <= t.tasks.Keys && e.after.updates.Keys <= t.updates.Keys
    ensures e.result.value.changes == 0 ==> e.after == t
  {
    match Selected(t.tasks, id)
    case None => Exec(t, Ok(RunResult(t.lastRowId, 0)))
    case Some(k) =>
      Exec(t.(tasks := t.tasks - {k}, updates := t.updates - UpdatesOf(t.updates, k)), Ok(RunResult(t.lastRowId, 1)))
  }

  /** The same statement with foreign-key enforcement off, the connection's default: the cascade does not run. */
  function DeleteTaskRowWithoutCascade(t: Tables, id: Value): Exec {
    match Selected(t.tasks, id)
    case None => Exec(t, Ok(RunResult(t.lastRowId, 0)))
    case Some(k) => Exec(t.(tasks := t.tasks - {k}), Ok(RunResult(t.lastRowId, 1)))
  }

  /**
   * Without the cascade a delete breaks the schema's promise: a task with one update,
   * deleted, leaves that update pointing at a task that no longer exists.
   */
  lemma WithoutCascadeLeavesOrphans()
    ensures var t := Tables(map[1 := UserRow("admin", Admin, 0)],
                            map[1 := TaskRow("t", SText(""), Activo, Media, SNull, SInt(1), 0, 0, SNull, Inicializado)],
                            map[1 := UpdateRow(1, SInt(1), SText("c"), None, 0)],
                            1, 1, 1, 1);
      Wellformed(t) &&
      DeleteTaskRowWithoutCascade(t, Num(1)).result == Ok(RunResult(1, 1)) &&
      !Wellformed(DeleteTaskRowWithoutCascade(t, Num(1)).after) &&
      Wellformed(DeleteTaskRow(t, Num(1)).after)
  {
    var t := Tables(map[1 := UserRow("admin", Admin, 0)],
                    map[1 := TaskRow("t", SText(""), Activo, Media, SNull, SInt(1), 0, 0, SNull, Inicializado)],
                    map[1 := UpdateRow(1, SInt(1), SText("c"), None, 0)],
                    1, 1, 1, 1);
    KeyMatchesDecimal(1);
    assert Selected(t.tasks, Num(1)) == Some(1);
    var after := DeleteTaskRowWithoutCascade(t, Num(1)).after;
    assert 1 in after.updates && after.updates[1].taskId !in after.tasks;
    DeleteTaskKeeps(t, Num(1));
  }

  /**
   * The updates a delete without the cascade leaves behind cannot be seen. Both forms of
   * the delete report the same result and leave the same users, tasks and counters. They
   * give every remaining task the same updates. Every update left behind carries a task
   * id no larger than the AUTOINCREMENT counter, which never goes back, so no later
   * task can take over those updates.
   */
  lemma OrphansUnseen(t: Tables, id: Value)
    requires Wellformed(t)
    ensures var a := DeleteTaskRow(t, id); var b := DeleteTaskRowWithoutCascade(t, id);
      a.result == b.result && a.after == b.after.(updates := a.after.updates) &&
      (forall u :: u in a.after.updates ==> u in b.after.updates && b.after.updates[u] == a.after.updates[u]) &&
      (forall k :: k in b.after.tasks ==> UpdatesOf(b.after.updates, k) == UpdatesOf(a.after.updates, k)) &&
      (forall u :: u in b.after.updates ==> b.after.updates[u].taskId <= b.after.taskSeq)
  {
    match Selected(t.tasks, id)
    case None =>
    case Some(gone) =>
      var a := DeleteTaskRow(t, id).after;
      var b := DeleteTaskRowWithoutCascade(t, id).after;
      forall k | k in b.tasks ensures UpdatesOf(b.updates, k) == UpdatesOf(a.updates, k) {
        assert k != gone;
      }
  }

  // ---------------------------------------------------------------------------
  // updates

  /**
   * `INSERT INTO updates (task_id, user_id, comment, progress_state) VALUES (?, ?, ?, ?)`
   * for the task with row id `taskKey`, which the caller has just looked up.
   */
  function InsertUpdateRow(t: Tables, taskKey: int, userId: Value, comment: Value, state: Value, now: nat): (e: Exec)
    ensures e.after.users == t.users && e.after.tasks == t.tasks
    ensures e.result.Err? ==> e.after == t
    ensures e.result.Ok? ==> e.result.value == RunResult(t.updateSeq + 1, 1) && e.after.updateSeq == t.updateSeq + 1 &&
                             t.updateSeq + 1 in e.after.updates &&
                             e.after.updates == t.updates[t.updateSeq + 1 := e.after.updates[t.updateSeq + 1]] &&
                             e.after.updates[t.updateSeq + 1].taskId == taskKey
  {
    var who := IntegerAffinity(userId);
    var st := TextAffinity(state);
    if who == SNull then Exec(t, Err(NotNullFailed(ColumnName("updates.", "user_id"))))
    else if st != SNull && ParseProgress(ToJs(st)).None? then Exec(t, Err(CheckFailed(ProgressCheck)))
    else
      var id := t.updateSeq + 1;
      var g := if st == SNull then None else ParseProgress(ToJs(st));
      Exec(t.(updates := t.updates[id := UpdateRow(taskKey, who, TextAffinity(comment), g, now)], updateSeq := id, lastRowId := id),
           Ok(RunResult(id, 1)))
  }

  // ---------------------------------------------------------------------------
  // The statements keep the schema's guarantees

  lemma InsertUserKeeps(t: Tables, name: Value, role: Value, now: nat)
    requires Wellformed(t)
    ensures var e := InsertUserRow(t, name, role, now);
      Wellformed(e.after) && e.after.tasks == t.tasks && e.after.updates == t.updates &&
      (e.result.Ok? <==> e.after != t) &&
      (e.result.Ok? ==> e.result.value.id !in t.users && e.result.value.changes == 1 &&
                        e.after.users == t.users[e.result.value.id := e.after.users[e.result.value.id]])
  {
    var e := InsertUserRow(t, name, role, now);
    if e.result.Ok? {
      assert e.result.value.id in e.after.users;
    }
  }

  lemma UpdateUserKeeps(t: Tables, id: Value, name: Value, role: Value)
    requires Wellformed(t)
    ensures var e := UpdateUserRow(t, id, name, role);
      Wellformed(e.after) && e.after.tasks == t.tasks && e.after.updates == t.updates &&
      e.after.users.Keys == t.users.Keys &&
      (e.result.Ok? && e.result.value.changes == 0 <==> Selected(t.users, id).None?) &&
      (e.result.Err? ==> e.after == t)
  {
    var e := UpdateUserRow(t, id, name, role);
    if Selected(t.users, id).Some? && e.result.Ok? {
      var k := Selected(t.users, id).value;
      forall j, i | j in e.after.users && i in e.after.users && e.after.users[j].name == e.after.users[i].name
        ensures j == i
      {
        assert forall x :: x in t.users - {k} ==> t.users[x].name != TextAffinity(name).t;
      }
    }
  }

  lemma DeleteUserKeeps(t: Tables, id: Value)
    requires Wellformed(t)
    ensures var e := DeleteUserRow(t, id);
      Wellformed(e.after) && e.result.Ok? && e.after.tasks == t.tasks && e.after.updates == t.updates &&
      (e.result.value.changes == 0 <==> Selected(t.users, id).None?) &&
      (forall k :: k in e.after.users <==> k in t.users && !KeyMatches(k, id))
  {
  }

  lemma InsertTaskKeeps(t: Tables, title: Value, description: Value, priority: Value, assignedTo: Value,
                        createdBy: Value, dueDate: Value, now: nat)
    requires Wellformed(t)
    ensures var e := InsertTaskRow(t, title, description, priority, assignedTo, createdBy, dueDate, now);
      Wellformed(e.after) && e.after.users == t.users && e.after.updates == t.updates &&
      (e.result.Err? ==> e.after == t) &&
      (e.result.Ok? ==> e.result.value.id !in t.tasks && e.result.value.id in e.after.tasks &&
                        e.after.tasks == t.tasks[e.result.value.id := e.after.tasks[e.result.value.id]] &&
                        UpdatesOf(t.updates, e.result.value.id) == {})
  {
    var e := InsertTaskRow(t, title, description, priority, assignedTo, createdBy, dueDate, now);
    if e.result.Ok? {
      var id := e.result.value.id;
      assert id == t.taskSeq + 1 && id !in t.tasks;
      assert forall u :: u in t.updates ==> t.updates[u].taskId != id;
    }
  }

  lemma UpdateTaskKeeps(t: Tables, id: Value, sets: seq<Assignment>, now: nat)
    requires Wellformed(t)
    ensures var e := UpdateTaskRow(t, id, sets, now);
      Wellformed(e.after) && e.after.users == t.users && e.after.updates == t.updates &&
      e.after.tasks.Keys == t.tasks.Keys && (e.result.Err? ==> e.after == t)
  {
  }

  lemma DeleteTaskKeeps(t: Tables, id: Value)
    requires Wellformed(t)
    ensures var e := DeleteTaskRow(t, id);
      Wellformed(e.after) && e.result.Ok? && e.after.users == t.users &&
      (e.result.value.changes == 0 <==> Selected(t.tasks, id).None?) &&
      (forall k :: k in e.after.tasks <==> k in t.tasks && !KeyMatches(k, id)) &&
      (forall u :: u in e.after.updates <==> u in t.updates && !KeyMatches(t.updates[u].taskId, id))
  {
  }

  lemma InsertUpdateKeeps(t: Tables, taskKey: int, userId: Value, comment: Value, state: Value, now: nat)
    requires Wellformed(t) && taskKey in t.tasks
    ensures var e := InsertUpdateRow(t, taskKey, userId, comment, state, now);
      Wellformed(e.after) && e.after.users == t.users && e.after.tasks == t.tasks &&
      (e.result.Err? ==> e.after == t) &&
      (e.result.Ok? ==> e.result.value.id !in t.updates && e.result.value.id in e.after.updates &&
                        e.after.updates == t.updates[e.result.value.id := e.after.updates[e.result.value.id]])
  {
  }

  // ---------------------------------------------------------------------------
  // The connection

  /** The open database connection that every model shares. */
  class Store {
    var users: map<int, UserRow>
    var tasks: map<int, TaskRow>
    var updates: map<int, UpdateRow>
    var userSeq: nat
    var taskSeq: nat
    var updateSeq: nat
    var lastRowId: int

    function State(): Tables
      reads this
    {
      Tables(users, tasks, updates, userSeq, taskSeq, updateSeq, lastRowId)
    }

    predicate Valid()
      reads this
    {
      Wellformed(State())
    }

    /** A freshly created database file: the three tables exist and are empty. */
    constructor ()
      ensures State() == Empty && Valid()
    {
      users, tasks, updates := map[], map[], map[];
      userSeq, taskSeq, updateSeq, lastRowId := 0, 0, 0, 0;
    }

    method Commit(t: Tables)
      modifies this
      ensures State() == t
    {
      users, tasks, updates := t.users, t.tasks, t.updates;
      userSeq, taskSeq, updateSeq, lastRowId := t.userSeq, t.taskSeq, t.updateSeq, t.lastRowId;
    }

    /** `db.run(sql, params)` for one of the write statements above. */
    method Run(e: Exec) returns (r: Result<RunResult>)
      requires Wellformed(e.after)
      modifies this
      ensures Valid() && State() == e.after && r == e.result
    {
      Commit(e.after);
      r := e.result;
    }

    /**
     * `createDefaultAdmin`: counts the users and, when there are none, inserts
     * `('admin', 'admin')`; a non-empty table is left as it was.
     */
    method CreateDefaultAdmin(now: nat)
      requires Valid()
      modifies this
      ensures Valid()
      ensures State() == SeedAdmin(old(State()), now)
    {
      var count := |users|;
      if count == 0 {
        InsertUserKeeps(State(), Str("admin"), Str("admin"), now);
        var _ := Run(InsertUserRow(State(), Str("admin"), Str("admin"), now));
      }
    }
  }

  /** The database after `createDefaultAdmin`. */
  function SeedAdmin(t: Tables, now: nat): (r: Tables)
    ensures r.tasks == t.tasks && r.updates == t.updates
    ensures forall k :: k in t.users ==> k in r.users && r.users[k] == t.users[k]
  {
    if |t.users| == 0 then InsertUserRow(t, Str("admin"), Str("admin"), now).after else t
  }

  /** Seeding an empty user table always succeeds and leaves exactly one user, the admin. */
  lemma SeedAdminEffect(t: Tables, now: nat)
    requires Wellformed(t)
    ensures |t.users| == 0 ==>
      InsertUserRow(t, Str("admin"), Str("admin"), now).result.Ok? &&
      SeedAdmin(t, now).users == map[t.userSeq + 1 := UserRow("admin", Admin, now)]
    ensures |t.users| > 0 ==> SeedAdmin(t, now) == t
    ensures SeedAdmin(SeedAdmin(t, now), now) == SeedAdmin(t, now)
  {
    if |t.users| == 0 {
      assert t.users == map[];
      var e := InsertUserRow(t, Str("admin"), Str("admin"), now);
      assert e.after.users == map[t.userSeq + 1 := UserRow("admin", Admin, now)];
      assert t.userSeq + 1 in e.after.users;
    }
  }
}
