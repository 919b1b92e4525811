/** The task ledger of backend/models/Task.js over the `tasks` and `updates` tables. */
module Tasks {
  import opened Js
  import opened Wrappers
  import opened Sqlite
  import opened Text
  import opened Ordering
  import opened Schema

  // ---------------------------------------------------------------------------
  // Request bodies and result rows

  /**
   * The fields of a request body the ledger reads. `createdBy` is the body's own
   * `created_by`, which no operation reads: the creator is always the session user.
   */
  datatype TaskBody = TaskBody(
    title: Value,
    description: Value,
    status: Value,
    priority: Value,
    assignedTo: Value,
    dueDate: Value,
    progressState: Value,
    createdBy: Value)

  /** The body of a progress update: `{ comment, progress_state }`. */
  datatype UpdateBody = UpdateBody(comment: Value, progressState: Value)

  /** The listing filters; a falsy one adds no condition. */
  datatype Filters = Filters(status: Value, assignedTo: Value, priority: Value, progressState: Value)

  /** A task row with the creator's and the assignee's names from the two LEFT JOINs. */
  datatype TaskView = TaskView(id: int, row: TaskRow, creatorName: Option<string>, assignedName: Option<string>)

  /** An update row with its author's name from the (inner) JOIN on users. */
  datatype UpdateView = UpdateView(id: int, comment: Cell, progress: Option<ProgressState>, timestamp: nat, userName: string)

  /** `{ ...task, updates }` */
  datatype TaskDetail = TaskDetail(task: TaskView, updates: seq<UpdateView>)

  datatype Stats = Stats(total: nat, active: nat, inactive: nat, completed: nat, unassigned: nat)

  /** `LEFT JOIN users u ON <column> = u.id`: the name of the user an INTEGER cell refers to. */
  function NameOf(users: map<int, UserRow>, c: Cell): (r: Option<string>)
    ensures r.Some? <==> c.SInt? && c.i in users
    ensures r.Some? ==> r.value == users[c.i].name
  {
    if c.SInt? && c.i in users then Some(users[c.i].name) else None
  }

  function ViewFor(t: Tables, k: int): (v: TaskView)
    requires k in t.tasks
    ensures v.id == k && v.row == t.tasks[k]
  {
    var row := t.tasks[k];
    TaskView(k, row, NameOf(t.users, row.createdBy), NameOf(t.users, row.assignedTo))
  }

  /** The update with row id `u` joined with its author; nothing when the author no longer exists. */
  function AuthorOf(t: Tables, u: int): (r: Option<UpdateView>)
    ensures r.Some? <==> u in t.updates && NameOf(t.users, t.updates[u].userId).Some?
    ensures r.Some? ==> r.value.id == u && r.value.timestamp == t.updates[u].timestamp
  {
    if u in t.updates then
      var row := t.updates[u];
      match NameOf(t.users, row.userId)
      case Some(name) => Some(UpdateView(u, row.comment, row.progress, row.timestamp, name))
      case None => None
    else None
  }

  /**
   * The history of task `k` as `getById` returns it: every update of the task whose author
   * still exists, each once, newest first (updates with equal timestamps in either order).
   */
  predicate HistoryOf(t: Tables, k: int, hs: seq<UpdateView>) {
    (forall i :: 0 <= i < |hs| ==>
       hs[i].id in t.updates && t.updates[hs[i].id].taskId == k && AuthorOf(t, hs[i].id) == Some(hs[i])) &&
    (forall u :: u in t.updates && t.updates[u].taskId == k && AuthorOf(t, u).Some? ==>
       exists i :: 0 <= i < |hs| && hs[i].id == u) &&
    (forall i, j :: 0 <= i < j < |hs| ==> hs[i].id != hs[j].id && hs[i].timestamp >= hs[j].timestamp)
  }

  predicate IsDetail(t: Tables, k: int, d: TaskDetail) {
    k in t.tasks && d.task == ViewFor(t, k) && HistoryOf(t, k, d.updates)
  }

  // ---------------------------------------------------------------------------
  // Messages

  const FetchPrefix: seq<string> := ["Error ", "fetching ", "task: "]
  const CreatePrefix: seq<string> := ["Error ", "creating ", "task: "]
  const UpdatePrefix: seq<string> := ["Error ", "updating ", "task: "]
  const DeletePrefix: seq<string> := ["Error ", "deleting ", "task: "]
  const AddPrefix: seq<string> := ["Error ", "adding ", "update: "]
  const TitleRequired: seq<string> := ["Title ", "is ", "required"]
  const PriorityInvalid: seq<string> := ["Priority ", "must ", "be ", "baja, ", "media, ", "or ", "alta"]
  const StatusInvalid: seq<string> := ["Status ", "must ", "be ", "activo, ", "inactivo, ", "or ", "finalizado"]
  const ProgressInvalid: seq<string> := ["Progress ", "state ", "must ", "be ", "inicial", "izado, ", "en ", "proceso, ", "or ", "finalizado"]
  const AssigneeNotFound: seq<string> := ["Assigned ", "user ", "not found"]
  const TaskNotFound: seq<string> := ["Task ", "not found"]
  const NoFields: seq<string> := ["No ", "fields ", "to ", "update"]
  const CommentOrStateRequired: seq<string> := ["Comment ", "or ", "progress ", "state ", "is ", "required"]

  // ---------------------------------------------------------------------------
  // Reads

  /**
   * `getById`: the task the parameter selects with its history, or "Task not found".
   * The history is read with the same parameter, which selects the same row id.
   */
  method GetTask(db: Store, id: Value) returns (r: Result<TaskDetail>)
    ensures r.Err? <==> Selected(db.tasks, id).None?
    ensures r.Err? ==> r.message == Wrap(FetchPrefix, Concat(TaskNotFound))
    ensures r.Ok? ==> Selected(db.tasks, id) == Some(r.value.task.id) && IsDetail(db.State(), r.value.task.id, r.value)
  {
    var t := db.State();
    match Selected(t.tasks, id) {
      case None =>
        r := Err(Wrap(FetchPrefix, Concat(TaskNotFound)));
      case Some(k) =>
        var joined := set u | u in t.updates && t.updates[u].taskId == k && AuthorOf(t, u).Some?;
        var keys := SortDescending(joined, u => if u in t.updates then t.updates[u].timestamp else 0);
        assert forall i :: 0 <= i < |keys| ==> keys[i] in joined;
        var hs := seq(|keys|, i requires 0 <= i < |keys| => AuthorOf(t, keys[i]).value);
        forall u | u in t.updates && t.updates[u].taskId == k && AuthorOf(t, u).Some?
          ensures exists i :: 0 <= i < |hs| && hs[i].id == u
        {
          assert u in joined;
          var i :| 0 <= i < |keys| && keys[i] == u;
          assert hs[i].id == u;
        }
        r := Ok(TaskDetail(ViewFor(t, k), hs));
    }
  }

  /** A `t.<column> = ?` condition of the listing query. */
  datatype Condition = Condition(column: TaskColumn, param: Value)

  /** The stored cell equals the parameter after the column's affinity; NULL equals nothing. */
  predicate Holds(row: TaskRow, c: Condition) {
    ColumnEq(CellOf(row, c.column), Affinity(c.column, c.param))
  }

  /** A row passes the listing when it meets the condition of every truthy filter. */
  predicate Matches(row: TaskRow, f: Filters) {
    (Truthy(f.status) ==> Holds(row, Condition(StatusCol, f.status))) &&
    (Truthy(f.assignedTo) ==> Holds(row, Condition(AssignedToCol, f.assignedTo))) &&
    (Truthy(f.priority) ==> Holds(row, Condition(PriorityCol, f.priority))) &&
    (Truthy(f.progressState) ==> Holds(row, Condition(ProgressCol, f.progressState)))
  }

  predicate AllHold(row: TaskRow, conds: seq<Condition>) {
    forall i :: 0 <= i < |conds| ==> Holds(row, conds[i])
  }

  function When(b: bool, c: Condition): seq<Condition> {
    if b then [c] else []
  }

  /** The conditions `getAll` appends, one per truthy filter, in this order. */
  function Conditions(f: Filters): seq<Condition> {
    When(Truthy(f.status), Condition(StatusCol, f.status)) +
    When(Truthy(f.assignedTo), Condition(AssignedToCol, f.assignedTo)) +
    When(Truthy(f.priority), Condition(PriorityCol, f.priority)) +
    When(Truthy(f.progressState), Condition(ProgressCol, f.progressState))
  }

  lemma AllHoldAppend(row: TaskRow, a: seq<Condition>, b: seq<Condition>)
    ensures AllHold(row, a + b) <==> AllHold(row, a) && AllHold(row, b)
  {
    if AllHold(row, a) && AllHold(row, b) {
      forall i | 0 <= i < |a + b| ensures Holds(row, (a + b)[i]) {
        if i >= |a| {
          assert (a + b)[i] == b[i - |a|];
        }
      }
    }
    if AllHold(row, a + b) {
      forall i | 0 <= i < |a| ensures Holds(row, a[i]) {
        assert (a + b)[i] == a[i];
      }
      forall i | 0 <= i < |b| ensures Holds(row, b[i]) {
        assert (a + b)[|a| + i] == b[i];
      }
    }
  }

  lemma AllHoldWhen(row: TaskRow, b: bool, c: Condition)
    ensures AllHold(row, When(b, c)) <==> (b ==> Holds(row, c))
  {
    if b {
      assert When(b, c)[0] == c;
    }
  }

  /** The conjunction of the appended conditions is exactly the filter's meaning. */
  lemma ConditionsMeaning(row: TaskRow, f: Filters)
    ensures AllHold(row, Conditions(f)) <==> Matches(row, f)
  {
    var a := When(Truthy(f.status), Condition(StatusCol, f.status));
    var b := When(Truthy(f.assignedTo), Condition(AssignedToCol, f.assignedTo));
    var c := When(Truthy(f.priority), Condition(PriorityCol, f.priority));
    var d := When(Truthy(f.progressState), Condition(ProgressCol, f.progressState));
    assert Conditions(f) == a + b + c + d;
    AllHoldAppend(row, a + b + c, d);
    AllHoldAppend(row, a + b, c);
    AllHoldAppend(row, a, b);
    AllHoldWhen(row, Truthy(f.status), Condition(StatusCol, f.status));
    AllHoldWhen(row, Truthy(f.assignedTo), Condition(AssignedToCol, f.assignedTo));
    AllHoldWhen(row, Truthy(f.priority), Condition(PriorityCol, f.priority));
    AllHoldWhen(row, Truthy(f.progressState), Condition(ProgressCol, f.progressState));
  }

  /** The clause and parameter pushes of `getAll`. */
  method BuildConditions(f: Filters) returns (conds: seq<Condition>)
    ensures conds == Conditions(f)
  {
    conds := [];
    if Truthy(f.status) {
      conds := conds + [Condition(StatusCol, f.status)];
    }
    if Truthy(f.assignedTo) {
      conds := conds + [Condition(AssignedToCol, f.assignedTo)];
    }
    if Truthy(f.priority) {
      conds := conds + [Condition(PriorityCol, f.priority)];
    }
    if Truthy(f.progressState) {
      conds := conds + [Condition(ProgressCol, f.progressState)];
    }
  }

  /**
   * `getAll`: the WHERE clause gains one condition per truthy filter, and the matching
   * tasks come back newest first (equal `created_at` in either order).
   */
  method ListTasks(db: Store, f: Filters) returns (r: seq<TaskView>)
    ensures forall i :: 0 <= i < |r| ==>
      r[i].id in db.tasks && r[i] == ViewFor(db.State(), r[i].id) && Matches(db.tasks[r[i].id], f)
    ensures forall k :: k in db.tasks && Matches(db.tasks[k], f) ==> exists i :: 0 <= i < |r| && r[i].id == k
    ensures forall i, j :: 0 <= i < j < |r| ==> r[i].id != r[j].id && r[i].row.createdAt >= r[j].row.createdAt
  {
    var t := db.State();
    var conds := BuildConditions(f);
    forall row ensures AllHold(row, conds) <==> Matches(row, f) {
      ConditionsMeaning(row, f);
    }
    var picked := set k | k in t.tasks && AllHold(t.tasks[k], conds);
    var keys := SortDescending(picked, k => if k in t.tasks then t.tasks[k].createdAt else 0);
    assert forall i :: 0 <= i < |keys| ==> keys[i] in picked;
    r := seq(|keys|, i requires 0 <= i < |keys| => ViewFor(t, keys[i]));
    forall k | k in t.tasks && Matches(t.tasks[k], f) ensures exists i :: 0 <= i < |r| && r[i].id == k {
      assert k in picked;
      var i :| 0 <= i < |keys| && keys[i] == k;
      assert r[i].id == k;
    }
  }

  /**
   * `getStats`: one pass of COUNTs over the tasks table. The total counts every task, the
   * three status counts partition it, and the unassigned tasks are some of them.
   */
  function GetStats(t: Tables): (st: Stats)
    ensures st.total == |t.tasks|
    ensures st.active + st.inactive + st.completed == st.total && st.unassigned <= st.total
  {
    var a, i, c := StatusSet(t, Activo), StatusSet(t, Inactivo), StatusSet(t, Status.Finalizado);
    StatusSetsDisjoint(t);
    DisjointCard(a, i);
    DisjointCard(a + i, c);
    StatusSetsCover(t);
    assert UnassignedSet(t) <= t.tasks.Keys;
    SubsetCard(UnassignedSet(t), t.tasks.Keys);
    Stats(|t.tasks.Keys|,
          |StatusSet(t, Activo)|,
          |StatusSet(t, Inactivo)|,
          |StatusSet(t, Status.Finalizado)|,
          |UnassignedSet(t)|)
  }

  /** The ids of the tasks with no assignee. */
  function UnassignedSet(t: Tables): set<int> {
    set k | k in t.tasks && t.tasks[k].assignedTo == SNull
  }

  /** The ids of the tasks in status `s`. */
  function StatusSet(t: Tables, s: Status): set<int> {
    set k | k in t.tasks && t.tasks[k].status == s
  }

  // ---------------------------------------------------------------------------
  // Writes, as functions of the database

  /** `create`: checks, then the INSERT with the defaults; the result is the new row id. */
  function Create(t: Tables, body: TaskBody, createdBy: Value, now: nat): (s: Step<int>)
    ensures s.after.users == t.users && s.after.updates == t.updates
    ensures s.result.Err? ==> s.after == t
    ensures s.result.Ok? ==> s.result.value == t.taskSeq + 1 && s.after.tasks.Keys == t.tasks.Keys + {t.taskSeq + 1}
  {
    if !Truthy(body.title) then Step(t, Err(Wrap(CreatePrefix, Concat(TitleRequired))))
    else if ParsePriority(Or(body.priority, Str("media"))).None? then Step(t, Err(Wrap(CreatePrefix, Concat(PriorityInvalid))))
    else if Truthy(body.assignedTo) && Selected(t.users, body.assignedTo).None? then
      Step(t, Err(Wrap(CreatePrefix, Concat(AssigneeNotFound))))
    else
      var e := InsertTaskRow(t, body.title, Or(body.description, Str("")), Or(body.priority, Str("media")),
                             Or(body.assignedTo, Null), createdBy, Or(body.dueDate, Null), now);
      match e.result
      case Err(m) => Step(e.after, Err(Wrap(CreatePrefix, m)))
      case Ok(run) => Step(e.after, Ok(run.id))
  }

  /** The body field that a column's assignment comes from. */
  function Field(body: TaskBody, c: TaskColumn): Value {
    match c
    case TitleCol => body.title
    case DescriptionCol => body.description
    case StatusCol => body.status
    case PriorityCol => body.priority
    case AssignedToCol => body.assignedTo
    case DueDateCol => body.dueDate
    case ProgressCol => body.progressState
  }

  /** The position of a column in the SET list the update builds. */
  function Position(c: TaskColumn): nat {
    match c
    case TitleCol => 0
    case DescriptionCol => 1
    case StatusCol => 2
    case PriorityCol => 3
    case AssignedToCol => 4
    case DueDateCol => 5
    case ProgressCol => 6
  }

  function Supplied(body: TaskBody, c: TaskColumn): seq<Assignment> {
    if Field(body, c) != Undefined then [Assignment(c, Field(body, c))] else []
  }

  /** The SET list of `update`: one `column = ?` per field that is not `undefined`. */
  function Assignments(body: TaskBody): seq<Assignment> {
    Supplied(body, TitleCol) + Supplied(body, DescriptionCol) + Supplied(body, StatusCol) +
    Supplied(body, PriorityCol) + Supplied(body, AssignedToCol) + Supplied(body, DueDateCol) +
    Supplied(body, ProgressCol)
  }

  /** The `updates`/`params` pushes of `update`, in field order. */
  method BuildAssignments(body: TaskBody) returns (sets: seq<Assignment>)
    ensures sets == Assignments(body)
  {
    sets := [];
    if body.title != Undefined {
      sets := sets + [Assignment(TitleCol, body.title)];
    }
    assert sets == Supplied(body, TitleCol);
    if body.description != Undefined {
      sets := sets + [Assignment(DescriptionCol, body.description)];
    }
    assert sets == Supplied(body, TitleCol) + Supplied(body, DescriptionCol);
    if body.status != Undefined {
      sets := sets + [Assignment(StatusCol, body.status)];
    }
    assert sets == Supplied(body, TitleCol) + Supplied(body, DescriptionCol) + Supplied(body, StatusCol);
    if body.priority != Undefined {
      sets := sets + [Assignment(PriorityCol, body.priority)];
    }
    assert sets == Supplied(body, TitleCol) + Supplied(body, DescriptionCol) + Supplied(body, StatusCol) + Supplied(body, PriorityCol);
    if body.assignedTo != Undefined {
      sets := sets + [Assignment(AssignedToCol, body.assignedTo)];
    }
    assert sets == Supplied(body, TitleCol) + Supplied(body, DescriptionCol) + Supplied(body, StatusCol) + Supplied(body, PriorityCol) + Supplied(body, AssignedToCol);
    if body.dueDate != Undefined {
      sets := sets + [Assignment(DueDateCol, body.dueDate)];
    }
    assert sets == Supplied(body, TitleCol) + Supplied(body, DescriptionCol) + Supplied(body, StatusCol) + Supplied(body, PriorityCol) + Supplied(body, AssignedToCol) + Supplied(body, DueDateCol);
    if body.progressState != Undefined {
      sets := sets + [Assignment(ProgressCol, body.progressState)];
    }
  }

  /** The checks of `update` before any write, in order: the first that fails names the error. */
  function UpdateRefusal(t: Tables, id: Value, body: TaskBody): Option<seq<string>> {
    if Selected(t.tasks, id).None? then Some(TaskNotFound)
    else if Truthy(body.status) && ParseStatus(body.status).None? then Some(StatusInvalid)
    else if Truthy(body.priority) && ParsePriority(body.priority).None? then Some(PriorityInvalid)
    else if Truthy(body.progressState) && ParseProgress(body.progressState).None? then Some(ProgressInvalid)
    else if Truthy(body.assignedTo) && Selected(t.users, body.assignedTo).None? then Some(AssigneeNotFound)
    else if Assignments(body) == [] then Some(NoFields)
    else None
  }

  /** `update`: existence, then the enumeration and assignee checks, then the UPDATE. */
  function Update(t: Tables, id: Value, body: TaskBody, now: nat): (s: Step<int>)
    ensures s.after.users == t.users && s.after.updates == t.updates && s.after.tasks.Keys == t.tasks.Keys
    ensures s.result.Err? ==> s.after == t
    ensures s.result.Ok? ==> s.result.value in t.tasks && KeyMatches(s.result.value, id)
  {
    if UpdateRefusal(t, id, body).Some? then Step(t, Err(Wrap(UpdatePrefix, Concat(UpdateRefusal(t, id, body).value))))
    else
      var e := UpdateTaskRow(t, id, Assignments(body), now);
      match e.result
      case Err(m) => Step(e.after, Err(Wrap(UpdatePrefix, m)))
      case Ok(_) => Step(e.after, Ok(Selected(t.tasks, id).value))
  }

  /** `delete`: the DELETE, and "Task not found" when it removed nothing. */
  function Delete(t: Tables, id: Value): (s: Step<bool>)
    ensures s.after.users == t.users && s.after.tasks.Keys <= t.tasks.Keys
    ensures s.result.Ok? <==> exists k :: k in t.tasks && KeyMatches(k, id)
    ensures s.result.Err? ==> s.after == t
  {
    var e := DeleteTaskRow(t, id);
    match e.result
    case Err(m) => Step(e.after, Err(Wrap(DeletePrefix, m)))
    case Ok(run) =>
      if run.changes == 0 then Step(e.after, Err(Wrap(DeletePrefix, Concat(TaskNotFound))))
      else Step(e.after, Ok(true))
  }

  /**
   * `addUpdate`: checks, the INSERT into updates, the task's progress when one was given,
   * and the new update read back with its author (nothing when the author is missing).
   */
  function AddUpdate(t: Tables, taskId: Value, body: UpdateBody, userId: Value, now: nat): (s: Step<Option<UpdateView>>)
    ensures s.after.users == t.users && s.after.tasks.Keys == t.tasks.Keys
    ensures (forall k :: k in t.tasks ==> !KeyMatches(k, taskId)) ==> s.result.Err? && s.after == t
  {
    if !Truthy(body.comment) && !Truthy(body.progressState) then
      Step(t, Err(Wrap(AddPrefix, Concat(CommentOrStateRequired))))
    else if Truthy(body.progressState) && ParseProgress(body.progressState).None? then
      Step(t, Err(Wrap(AddPrefix, Concat(ProgressInvalid))))
    else if Selected(t.tasks, taskId).None? then Step(t, Err(Wrap(AddPrefix, Concat(TaskNotFound))))
    else
      Record(t, taskId, Selected(t.tasks, taskId).value, body.progressState, userId, Or(body.comment, Str("")),
             Or(body.progressState, Str("inicializado")), now)
  }

  /**
   * The writes of `addUpdate` once the checks have passed: the INSERT into `updates`
   * and, when a progress state was given, the UPDATE of the task's progress.
   */
  function Record(t: Tables, taskId: Value, k: int, progress: Value, userId: Value, comment: Value, state: Value,
                  now: nat): (s: Step<Option<UpdateView>>)
    ensures s.after.users == t.users && s.after.tasks.Keys == t.tasks.Keys
    ensures s.after.updates.Keys <= t.updates.Keys + {t.updateSeq + 1}
    ensures Wellformed(t) ==> forall u :: u in t.updates ==> u in s.after.updates && s.after.updates[u] == t.updates[u]
  {
    var e := InsertUpdateRow(t, k, userId, comment, state, now);
    match e.result
    case Err(m) => Step(e.after, Err(Wrap(AddPrefix, m)))
    case Ok(run) =>
      if !Truthy(progress) then Step(e.after, Ok(AuthorOf(e.after, run.id)))
      else
        var e2 := UpdateTaskRow(e.after, taskId, [Assignment(ProgressCol, progress)], now);
        match e2.result
        case Err(m) => Step(e2.after, Err(Wrap(AddPrefix, m)))
        case Ok(_) => Step(e2.after, Ok(AuthorOf(e2.after, run.id)))
  }

  // ---------------------------------------------------------------------------
  // The same operations on the shared connection

  method CreateTask(db: Store, body: TaskBody, createdBy: Value, now: nat) returns (r: Result<TaskDetail>)
    requires db.Valid()
    modifies db
    ensures db.Valid()
    ensures var s := Create(old(db.State()), body, createdBy, now);
      db.State() == s.after &&
      (s.result.Err? ==> r == Err(s.result.message)) &&
      (s.result.Ok? ==> r.Ok? && r.value.task.id == s.result.value && IsDetail(db.State(), s.result.value, r.value))
  {
    if !Truthy(body.title) {
      return Err(Wrap(CreatePrefix, Concat(TitleRequired)));
    }
    if ParsePriority(Or(body.priority, Str("media"))).None? {
      return Err(Wrap(CreatePrefix, Concat(PriorityInvalid)));
    }
    if Truthy(body.assignedTo) {
      var assignee := Selected(db.users, body.assignedTo);
      if assignee.None? {
        return Err(Wrap(CreatePrefix, Concat(AssigneeNotFound)));
      }
    }
    r := WriteCreate(db, body.title, Or(body.description, Str("")), Or(body.priority, Str("media")),
                     Or(body.assignedTo, Null), createdBy, Or(body.dueDate, Null), now);
  }

  /** The INSERT statement of `create` once the checks have passed, and the task read back. */
  method WriteCreate(db: Store, title: Value, description: Value, priority: Value, assignedTo: Value,
                     createdBy: Value, dueDate: Value, now: nat) returns (r: Result<TaskDetail>)
    requires db.Valid()
    modifies db
    ensures db.Valid()
    ensures var e := InsertTaskRow(old(db.State()), title, description, priority, assignedTo, createdBy, dueDate, now);
      db.State() == e.after &&
      (e.result.Err? ==> r == Err(Wrap(CreatePrefix, e.result.message))) &&
      (e.result.Ok? ==> r.Ok? && r.value.task.id == e.result.value.id && IsDetail(db.State(), e.result.value.id, r.value))
  {
    InsertTaskKeeps(db.State(), title, description, priority, assignedTo, createdBy, dueDate, now);
    var run := db.Run(InsertTaskRow(db.State(), title, description, priority, assignedTo, createdBy, dueDate, now));
    match run {
      case Err(m) =>
        r := Err(Wrap(CreatePrefix, m));
      case Ok(res) =>
        KeyMatchesDecimal(res.id);
        var d := GetTask(db, Num(res.id));
        match d {
          case Err(m) => r := Err(Wrap(CreatePrefix, m));
          case Ok(detail) => r := Ok(detail);
        }
    }
  }

  method UpdateTask(db: Store, id: Value, body: TaskBody, now: nat) returns (r: Result<TaskDetail>)
    requires db.Valid()
    modifies db
    ensures db.Valid()
    ensures var s := Update(old(db.State()), id, body, now);
      db.State() == s.after &&
      (s.result.Err? ==> r == Err(s.result.message)) &&
      (s.result.Ok? ==> r.Ok? && r.value.task.id == s.result.value && IsDetail(db.State(), s.result.value, r.value))
  {
    var refusal := CheckUpdate(db, id, body);
    if refusal.Some? {
      return Err(Wrap(UpdatePrefix, Concat(refusal.value)));
    }
    var sets := BuildAssignments(body);
    r := WriteUpdate(db, id, sets, now);
  }

  /**
   * The checks of `update`, in the order the model makes them: the message of the first
   * one that fails, or nothing when the UPDATE may run.
   */
  method CheckUpdate(db: Store, id: Value, body: TaskBody) returns (refusal: Option<seq<string>>)
    requires db.Valid()
    ensures refusal == UpdateRefusal(db.State(), id, body)
  {
    var existing := Selected(db.tasks, id);
    if existing.None? {
      return Some(TaskNotFound);
    }
    if Truthy(body.status) && ParseStatus(body.status).None? {
      return Some(StatusInvalid);
    }
    if Truthy(body.priority) && ParsePriority(body.priority).None? {
      return Some(PriorityInvalid);
    }
    if Truthy(body.progressState) && ParseProgress(body.progressState).None? {
      return Some(ProgressInvalid);
    }
    if Truthy(body.assignedTo) {
      var assignee := Selected(db.users, body.assignedTo);
      if assignee.None? {
        return Some(AssigneeNotFound);
      }
    }
    var sets := BuildAssignments(body);
    if |sets| == 0 {
      return Some(NoFields);
    }
    return None;
  }

  /** The UPDATE statement of `update` once the checks have passed, and the task read back. */
  method WriteUpdate(db: Store, id: Value, sets: seq<Assignment>, now: nat) returns (r: Result<TaskDetail>)
    requires db.Valid() && Selected(db.tasks, id).Some?
    modifies db
    ensures db.Valid()
    ensures var e := UpdateTaskRow(old(db.State()), id, sets, now);
      db.State() == e.after &&
      (e.result.Err? ==> r == Err(Wrap(UpdatePrefix, e.result.message))) &&
      (e.result.Ok? ==> r.Ok? && r.value.task.id == Selected(old(db.tasks), id).value &&
                        IsDetail(db.State(), r.value.task.id, r.value))
  {
    UpdateTaskKeeps(db.State(), id, sets, now);
    var run := db.Run(UpdateTaskRow(db.State(), id, sets, now));
    match run {
      case Err(m) =>
        r := Err(Wrap(UpdatePrefix, m));
      case Ok(_) =>
        var d := GetTask(db, id);
        match d {
          case Err(m) => r := Err(Wrap(UpdatePrefix, m));
          case Ok(detail) => r := Ok(detail);
        }
    }
  }

  method DeleteTask(db: Store, id: Value) returns (r: Result<bool>)
    requires db.Valid()
    modifies db
    ensures db.Valid()
    ensures db.State() == Delete(old(db.State()), id).after
    ensures r == Delete(old(db.State()), id).result
  {
    DeleteTaskKeeps(db.State(), id);
    var run := db.Run(DeleteTaskRow(db.State(), id));
    match run {
      case Err(m) => r := Err(Wrap(DeletePrefix, m));
      case Ok(res) =>
        if res.changes == 0 {
          r := Err(Wrap(DeletePrefix, Concat(TaskNotFound)));
        } else {
          r := Ok(true);
        }
    }
  }

  method AddTaskUpdate(db: Store, taskId: Value, body: UpdateBody, userId: Value, now: nat)
    returns (r: Result<Option<UpdateView>>)
    requires db.Valid()
    modifies db
    ensures db.Valid()
    ensures db.State() == AddUpdate(old(db.State()), taskId, body, userId, now).after
    ensures r == AddUpdate(old(db.State()), taskId, body, userId, now).result
  {
    if !Truthy(body.comment) && !Truthy(body.progressState) {
      return Err(Wrap(AddPrefix, Concat(CommentOrStateRequired)));
    }
    if Truthy(body.progressState) && ParseProgress(body.progressState).None? {
      return Err(Wrap(AddPrefix, Concat(ProgressInvalid)));
    }
    var task := Selected(db.tasks, taskId);
    if task.None? {
      return Err(Wrap(AddPrefix, Concat(TaskNotFound)));
    }
    r := WriteRecord(db, taskId, task.value, body.progressState, userId, Or(body.comment, Str("")),
                     Or(body.progressState, Str("inicializado")), now);
  }

  /** The writes of `addUpdate` on the shared connection. */
  method WriteRecord(db: Store, taskId: Value, k: int, progress: Value, userId: Value, comment: Value, state: Value,
                     now: nat) returns (r: Result<Option<UpdateView>>)
    requires db.Valid() && k in db.tasks
    modifies db
    ensures db.Valid()
    ensures db.State() == Record(old(db.State()), taskId, k, progress, userId, comment, state, now).after
    ensures r == Record(old(db.State()), taskId, k, progress, userId, comment, state, now).result
  {
    InsertUpdateKeeps(db.State(), k, userId, comment, state, now);
    var run := db.Run(InsertUpdateRow(db.State(), k, userId, comment, state, now));
    if run.Err? {
      return Err(Wrap(AddPrefix, run.message));
    }
    if Truthy(progress) {
      var sets := [Assignment(ProgressCol, progress)];
      UpdateTaskKeeps(db.State(), taskId, sets, now);
      var again := db.Run(UpdateTaskRow(db.State(), taskId, sets, now));
      if again.Err? {
        return Err(Wrap(AddPrefix, again.message));
      }
    }
    r := Ok(AuthorOf(db.State(), run.value.id));
  }

  // ---------------------------------------------------------------------------
  // Properties

  /**
   * `create` rejects, in this order, a falsy title, a priority that even after defaulting
   * to 'media' is not an enumeration value, and a truthy assignee that is no user; the
   * tables are left as they were.
   */
  lemma CreateRejects(t: Tables, body: TaskBody, createdBy: Value, now: nat)
    ensures var s := Create(t, body, createdBy, now);
      (!Truthy(body.title) ==> s == Step(t, Err(Wrap(CreatePrefix, Concat(TitleRequired))))) &&
      (Truthy(body.title) && ParsePriority(Or(body.priority, Str("media"))).None? ==>
         s == Step(t, Err(Wrap(CreatePrefix, Concat(PriorityInvalid))))) &&
      (Truthy(body.title) && ParsePriority(Or(body.priority, Str("media"))).Some? &&
       Truthy(body.assignedTo) && (forall k :: k in t.users ==> !KeyMatches(k, body.assignedTo)) ==>
         s == Step(t, Err(Wrap(CreatePrefix, Concat(AssigneeNotFound)))))
  {
  }

  /**
   * A `create` that passes the checks, by a creator id that is not NULL, adds exactly one
   * task under a fresh id: active, 'inicializado', created by the `createdBy` argument,
   * with description '', priority 'media' and no assignee when those are absent.
   */
  lemma CreateStores(t: Tables, body: TaskBody, createdBy: Value, now: nat)
    requires Wellformed(t) && Truthy(body.title) && ParsePriority(Or(body.priority, Str("media"))).Some?
    requires Truthy(body.assignedTo) ==> Selected(t.users, body.assignedTo).Some?
    requires IntegerAffinity(createdBy) != SNull
    ensures var s := Create(t, body, createdBy, now);
      s.result.Ok? && s.result.value !in t.tasks && Wellformed(s.after) &&
      s.after.users == t.users && s.after.updates == t.updates &&
      s.after.tasks.Keys == t.tasks.Keys + {s.result.value} &&
      (forall k :: k in t.tasks ==> s.after.tasks[k] == t.tasks[k]) &&
      var row := s.after.tasks[s.result.value];
      TextAffinity(body.title) == SText(row.title) &&
      row.status == Activo && row.progress == Inicializado &&
      row.createdBy == IntegerAffinity(createdBy) && row.createdAt == now && row.updatedAt == now &&
      row.priority == ParsePriority(Or(body.priority, Str("media"))).value &&
      (!Truthy(body.description) ==> row.description == SText("")) &&
      (Truthy(body.description) ==> row.description == TextAffinity(body.description)) &&
      row.dueDate == IntegerAffinity(Or(body.dueDate, Null)) &&
      (!Truthy(body.priority) ==> row.priority == Media) &&
      (!Truthy(body.assignedTo) ==> row.assignedTo == SNull) &&
      (Truthy(body.assignedTo) ==> row.assignedTo == SInt(Selected(t.users, body.assignedTo).value))
  {
    var e := InsertTaskRow(t, body.title, Or(body.description, Str("")), Or(body.priority, Str("media")),
                           Or(body.assignedTo, Null), createdBy, Or(body.dueDate, Null), now);
    InsertTaskKeeps(t, body.title, Or(body.description, Str("")), Or(body.priority, Str("media")),
                    Or(body.assignedTo, Null), createdBy, Or(body.dueDate, Null), now);
    CheckAgreesWithIncludes(Or(body.priority, Str("media")));
    assert e.result.Ok?;
  }

  /**
   * What `POST /` answers with, the task read back after `create`, compared with the
   * request body: title, description and priority come back as sent (a number as its
   * text); `assigned_to` and `due_date` come back loosely equal to what was sent, and
   * identical unless a text that SQLite's INTEGER affinity turns into a number was sent
   * (an `assigned_to` of "5" comes back as the number 5).
   */
  lemma CreateEchoes(t: Tables, body: TaskBody, createdBy: Value, now: nat)
    requires Wellformed(t) && Truthy(body.title) && ParsePriority(Or(body.priority, Str("media"))).Some?
    requires Truthy(body.assignedTo) ==> Selected(t.users, body.assignedTo).Some?
    requires IntegerAffinity(createdBy) != SNull
    ensures var s := Create(t, body, createdBy, now);
      s.result.Ok? && s.result.value in s.after.tasks &&
      var row := s.after.tasks[s.result.value];
      Str(row.title) == Str(ToText(body.title)) &&
      (Truthy(body.description) ==> ToJs(row.description) == Str(ToText(body.description))) &&
      Str(PriorityName(row.priority)) == Or(body.priority, Str("media")) &&
      (Truthy(body.assignedTo) ==>
         LooseEq(ToJs(row.assignedTo), body.assignedTo) &&
         (ToJs(row.assignedTo) == body.assignedTo <==> body.assignedTo.Num? || IntegerLiteral(body.assignedTo.s).None?)) &&
      (Truthy(body.dueDate) ==>
         LooseEq(ToJs(row.dueDate), body.dueDate) &&
         (ToJs(row.dueDate) == body.dueDate <==> body.dueDate.Num? || IntegerLiteral(body.dueDate.s).None?))
  {
    CreateStores(t, body, createdBy, now);
    var s := Create(t, body, createdBy, now);
    var row := s.after.tasks[s.result.value];
    if Truthy(body.assignedTo) {
      IntegerAffinityEcho(body.assignedTo);
    }
    if Truthy(body.dueDate) {
      IntegerAffinityEcho(body.dueDate);
    }
  }

  /** The body's own `created_by` never matters: `create` behaves the same whatever it holds. */
  lemma CreateIgnoresBodyCreator(t: Tables, body: TaskBody, other: Value, createdBy: Value, now: nat)
    ensures Create(t, body, createdBy, now) == Create(t, body.(createdBy := other), createdBy, now)
  {
  }

  /** `update` of an id that selects no task fails with "Task not found" whatever the body holds. */
  lemma UpdateMissingTask(t: Tables, id: Value, body: TaskBody, now: nat)
    requires forall k :: k in t.tasks ==> !KeyMatches(k, id)
    ensures Update(t, id, body, now) == Step(t, Err(Wrap(UpdatePrefix, Concat(TaskNotFound))))
  {
  }

  /**
   * For an existing task, `update` rejects in this order an invalid truthy status, priority or
   * progress state, a truthy unknown assignee, and a body without any field; none of these writes.
   */
  lemma UpdateRejects(t: Tables, id: Value, body: TaskBody, now: nat)
    requires Selected(t.tasks, id).Some?
    ensures var s := Update(t, id, body, now);
      var fail := (m: seq<string>) => Step(t, Err(Wrap(UpdatePrefix, Concat(m))));
      var badStatus := Truthy(body.status) && ParseStatus(body.status).None?;
      var badPriority := Truthy(body.priority) && ParsePriority(body.priority).None?;
      var badProgress := Truthy(body.progressState) && ParseProgress(body.progressState).None?;
      var badAssignee := Truthy(body.assignedTo) && Selected(t.users, body.assignedTo).None?;
      (badStatus ==> s == fail(StatusInvalid)) &&
      ((!badStatus && badPriority) ==> s == fail(PriorityInvalid)) &&
      ((!badStatus && !badPriority && badProgress) ==> s == fail(ProgressInvalid)) &&
      ((!badStatus && !badPriority && !badProgress && badAssignee) ==> s == fail(AssigneeNotFound))
  {
  }

  /** A body in which every field is `undefined` reaches "No fields to update" on an existing task. */
  lemma UpdateNoFields(t: Tables, id: Value, body: TaskBody, now: nat)
    requires Selected(t.tasks, id).Some?
    requires forall c :: Field(body, c) == Undefined
    ensures Update(t, id, body, now) == Step(t, Err(Wrap(UpdatePrefix, Concat(NoFields))))
  {
    assert body.title == Field(body, TitleCol) && body.description == Field(body, DescriptionCol);
    assert body.status == Field(body, StatusCol) && body.priority == Field(body, PriorityCol);
    assert body.assignedTo == Field(body, AssignedToCol) && body.dueDate == Field(body, DueDateCol);
    assert body.progressState == Field(body, ProgressCol);
  }

  /**
   * The enumeration checks skip falsy values: an explicit `null` status passes them and is
   * then refused by the column's NOT NULL constraint, with the driver's message.
   */
  lemma UpdateNullStatus(t: Tables, id: Value, now: nat)
    requires Selected(t.tasks, id).Some?
    ensures var body := TaskBody(Undefined, Undefined, Null, Undefined, Undefined, Undefined, Undefined, Undefined);
      Update(t, id, body, now) == Step(t, Err(Wrap(UpdatePrefix, NotNullFailed(TaskColumnName(StatusCol)))))
  {
    var body := TaskBody(Undefined, Undefined, Null, Undefined, Undefined, Undefined, Undefined, Undefined);
    assert Assignments(body) == [Assignment(StatusCol, Null)];
  }

  /**
   * `{status: "", priority: null}` passes both truthiness guards; the UPDATE then breaks the
   * status CHECK and the priority NOT NULL, and the error names the NOT NULL constraint.
   */
  lemma UpdateNullPriorityBadStatus(t: Tables, id: Value, now: nat)
    requires Selected(t.tasks, id).Some?
    ensures var body := TaskBody(Undefined, Undefined, Str(""), Null, Undefined, Undefined, Undefined, Undefined);
      Update(t, id, body, now) == Step(t, Err(Wrap(UpdatePrefix, NotNullFailed(TaskColumnName(PriorityCol)))))
  {
    var body := TaskBody(Undefined, Undefined, Str(""), Null, Undefined, Undefined, Undefined, Undefined);
    var sets := [Assignment(StatusCol, Str("")), Assignment(PriorityCol, Null)];
    assert Assignments(body) == sets;
    assert UpdateRefusal(t, id, body).None?;
    NullPriorityBeforeBadStatus(t.tasks[Selected(t.tasks, id).value]);
    assert UpdateTaskRow(t, id, sets, now) == Exec(t, Err(NotNullFailed(TaskColumnName(PriorityCol))));
  }

  /**
   * The SET list holds one assignment per supplied field, with that field's value, in field
   * order, and nothing else.
   */
  lemma AssignmentsMeaning(body: TaskBody)
    ensures var sets := Assignments(body);
      DistinctColumns(sets) &&
      (forall i :: 0 <= i < |sets| ==> Field(body, sets[i].column) != Undefined && sets[i].value == Field(body, sets[i].column)) &&
      (forall c :: Field(body, c) != Undefined ==> exists i :: 0 <= i < |sets| && sets[i].column == c) &&
      (forall i, j :: 0 <= i < j < |sets| ==> Position(sets[i].column) < Position(sets[j].column))
  {
    AssignmentsBuilt(body);
    var sets := Assignments(body);
    assert forall c :: Position(c) < 7;
    assert DistinctColumns(sets) by {
      forall i, j | 0 <= i < j < |sets| ensures sets[i].column != sets[j].column {
        assert Position(sets[i].column) < Position(sets[j].column);
      }
    }
  }

  lemma AssignmentsBuilt(body: TaskBody)
    ensures BuiltUpTo(body, Assignments(body), 7)
  {
    var s1 := Supplied(body, TitleCol);
    AppendColumn(body, [], TitleCol);
    assert [] + s1 == s1;
    AppendColumn(body, s1, DescriptionCol);
    var s2 := s1 + Supplied(body, DescriptionCol);
    AppendColumn(body, s2, StatusCol);
    var s3 := s2 + Supplied(body, StatusCol);
    AppendColumn(body, s3, PriorityCol);
    var s4 := s3 + Supplied(body, PriorityCol);
    AppendColumn(body, s4, AssignedToCol);
    var s5 := s4 + Supplied(body, AssignedToCol);
    AppendColumn(body, s5, DueDateCol);
    var s6 := s5 + Supplied(body, DueDateCol);
    AppendColumn(body, s6, ProgressCol);
  }

  /**
   * `sets` is the SET list built from the fields before position `n`: in increasing position,
   * each with its supplied value, and covering every supplied field before `n`.
   */
  predicate BuiltUpTo(body: TaskBody, sets: seq<Assignment>, n: nat) {
    ValuesBefore(body, sets, n) && Ascending(sets) && CoversBefore(body, sets, n)
  }

  predicate ValuesBefore(body: TaskBody, sets: seq<Assignment>, n: nat) {
    forall i :: 0 <= i < |sets| ==>
      Position(sets[i].column) < n && Field(body, sets[i].column) != Undefined && sets[i].value == Field(body, sets[i].column)
  }

  predicate Ascending(sets: seq<Assignment>) {
    forall i, j :: 0 <= i < j < |sets| ==> Position(sets[i].column) < Position(sets[j].column)
  }

  predicate CoversBefore(body: TaskBody, sets: seq<Assignment>, n: nat) {
    forall c :: Position(c) < n && Field(body, c) != Undefined ==> exists i :: 0 <= i < |sets| && sets[i].column == c
  }

  lemma AppendColumn(body: TaskBody, sets: seq<Assignment>, col: TaskColumn)
    requires BuiltUpTo(body, sets, Position(col))
    ensures BuiltUpTo(body, sets + Supplied(body, col), Position(col) + 1)
  {
    AppendValues(body, sets, col);
    AppendAscending(body, sets, col);
    AppendCovers(body, sets, col);
  }

  lemma AppendValues(body: TaskBody, sets: seq<Assignment>, col: TaskColumn)
    requires ValuesBefore(body, sets, Position(col))
    ensures ValuesBefore(body, sets + Supplied(body, col), Position(col) + 1)
  {
    var next := sets + Supplied(body, col);
    forall i | 0 <= i < |next|
      ensures Position(next[i].column) < Position(col) + 1 && Field(body, next[i].column) != Undefined && next[i].value == Field(body, next[i].column)
    {
      if i < |sets| {
        assert next[i] == sets[i];
      }
    }
  }

  lemma AppendAscending(body: TaskBody, sets: seq<Assignment>, col: TaskColumn)
    requires ValuesBefore(body, sets, Position(col)) && Ascending(sets)
    ensures Ascending(sets + Supplied(body, col))
  {
    var next := sets + Supplied(body, col);
    forall i, j | 0 <= i < j < |next| ensures Position(next[i].column) < Position(next[j].column) {
      assert next[i] == sets[i];
      if j < |sets| {
        assert next[j] == sets[j];
      } else {
        assert next[j].column == col;
      }
    }
  }

  lemma AppendCovers(body: TaskBody, sets: seq<Assignment>, col: TaskColumn)
    requires CoversBefore(body, sets, Position(col))
    ensures CoversBefore(body, sets + Supplied(body, col), Position(col) + 1)
  {
    var next := sets + Supplied(body, col);
    forall c | Position(c) < Position(col) + 1 && Field(body, c) != Undefined
      ensures exists i :: 0 <= i < |next| && next[i].column == c
    {
      if c == col {
        assert next[|sets|].column == c;
      } else {
        var i :| 0 <= i < |sets| && sets[i].column == c;
        assert next[i].column == c;
      }
    }
  }

  /**
   * What a successful `update` writes: every supplied field (`!== undefined`, `null` included)
   * is stored under its column's affinity, every other column keeps its value, `updated_at`
   * becomes `now`, and no other row or table changes.
   */
  lemma UpdateWritesExactly(t: Tables, id: Value, body: TaskBody, now: nat)
    requires Wellformed(t) && Update(t, id, body, now).result.Ok?
    ensures var s := Update(t, id, body, now);
      var k := s.result.value;
      k in t.tasks && KeyMatches(k, id) && Wellformed(s.after) &&
      s.after.users == t.users && s.after.updates == t.updates &&
      s.after.tasks.Keys == t.tasks.Keys &&
      (forall j :: j in t.tasks && j != k ==> s.after.tasks[j] == t.tasks[j]) &&
      (forall c :: CellOf(s.after.tasks[k], c) ==
         if Field(body, c) != Undefined then Affinity(c, Field(body, c)) else CellOf(t.tasks[k], c)) &&
      s.after.tasks[k].createdBy == t.tasks[k].createdBy && s.after.tasks[k].createdAt == t.tasks[k].createdAt &&
      s.after.tasks[k].updatedAt == now
  {
    var sets := Assignments(body);
    var k := Selected(t.tasks, id).value;
    AssignmentsMeaning(body);
    AssignAllEffect(t.tasks[k], sets);
    UpdateTaskKeeps(t, id, sets, now);
    var row := AssignAll(t.tasks[k], sets).value;
    var s := Update(t, id, body, now);
    assert s.after.tasks[k] == row.(updatedAt := now);
    forall c ensures CellOf(s.after.tasks[k], c) ==
      if Field(body, c) != Undefined then Affinity(c, Field(body, c)) else CellOf(t.tasks[k], c)
    {
      assert CellOf(s.after.tasks[k], c) == CellOf(row, c);
      if Field(body, c) != Undefined {
        var i :| 0 <= i < |sets| && sets[i].column == c;
      }
    }
  }

  /** An explicit `assigned_to: null` is written: the task is left without an assignee. */
  lemma UpdateClearsAssignee(t: Tables, id: Value, body: TaskBody, now: nat)
    requires Wellformed(t) && body.assignedTo == Null && Update(t, id, body, now).result.Ok?
    ensures var s := Update(t, id, body, now);
      s.after.tasks[s.result.value].assignedTo == SNull
  {
    UpdateWritesExactly(t, id, body, now);
    var s := Update(t, id, body, now);
    assert CellOf(s.after.tasks[s.result.value], AssignedToCol) == Affinity(AssignedToCol, Null);
  }

  /**
   * `delete` fails with "Task not found" exactly when no row was removed; otherwise the task
   * and all of its updates are gone and nothing else changes.
   */
  lemma DeleteEffect(t: Tables, id: Value)
    requires Wellformed(t)
    ensures var s := Delete(t, id);
      Wellformed(s.after) &&
      (s.result.Err? <==> forall k :: k in t.tasks ==> !KeyMatches(k, id)) &&
      (s.result.Err? ==> s == Step(t, Err(Wrap(DeletePrefix, Concat(TaskNotFound))))) &&
      (s.result.Ok? ==>
         var k := Selected(t.tasks, id).value;
         s.after.tasks == t.tasks - {k} && s.after.users == t.users &&
         s.after.updates == t.updates - UpdatesOf(t.updates, k) &&
         forall u :: u in s.after.updates ==> s.after.updates[u].taskId != k)
  {
    DeleteTaskKeeps(t, id);
  }

  /**
   * `addUpdate` rejects, in this order, a body with neither a truthy comment nor a truthy
   * state, an invalid truthy state, and a task id that selects no task; none of these writes.
   */
  lemma AddUpdateRejects(t: Tables, taskId: Value, body: UpdateBody, userId: Value, now: nat)
    ensures var s := AddUpdate(t, taskId, body, userId, now);
      var fail := (m: seq<string>) => Step(t, Err(Wrap(AddPrefix, Concat(m))));
      var empty := !Truthy(body.comment) && !Truthy(body.progressState);
      var badState := Truthy(body.progressState) && ParseProgress(body.progressState).None?;
      (empty ==> s == fail(CommentOrStateRequired)) &&
      ((!empty && badState) ==> s == fail(ProgressInvalid)) &&
      ((!empty && !badState && forall k :: k in t.tasks ==> !KeyMatches(k, taskId)) ==> s == fail(TaskNotFound))
  {
    if !(!Truthy(body.comment) && !Truthy(body.progressState)) && !(Truthy(body.progressState) && ParseProgress(body.progressState).None?) {
      if forall k :: k in t.tasks ==> !KeyMatches(k, taskId) {
        assert Selected(t.tasks, taskId).None?;
      }
    }
  }

  /**
   * A progress update that passes the checks, by a user id that is not NULL, appends one
   * update row (comment '' and state 'inicializado' when absent) and sets the task's progress
   * state, and its `updated_at`, only when a state was supplied.
   */
  lemma AddUpdateEffect(t: Tables, taskId: Value, body: UpdateBody, userId: Value, now: nat)
    requires Wellformed(t) && (Truthy(body.comment) || Truthy(body.progressState))
    requires Truthy(body.progressState) ==> ParseProgress(body.progressState).Some?
    requires Selected(t.tasks, taskId).Some? && IntegerAffinity(userId) != SNull
    ensures var s := AddUpdate(t, taskId, body, userId, now);
      var k := Selected(t.tasks, taskId).value;
      var state := if Truthy(body.progressState) then ParseProgress(body.progressState).value else Inicializado;
      s.result.Ok? && Wellformed(s.after) && s.after.users == t.users &&
      (exists u :: u !in t.updates &&
         s.after.updates == t.updates[u := UpdateRow(k, IntegerAffinity(userId), TextAffinity(Or(body.comment, Str(""))),
                                                     Some(state), now)] &&
         s.result.value == AuthorOf(s.after, u)) &&
      (!Truthy(body.comment) ==> TextAffinity(Or(body.comment, Str(""))) == SText("")) &&
      (Truthy(body.progressState) ==> s.after.tasks == t.tasks[k := t.tasks[k].(progress := state, updatedAt := now)]) &&
      (!Truthy(body.progressState) ==> s.after.tasks == t.tasks)
  {
    var k := Selected(t.tasks, taskId).value;
    var comment := Or(body.comment, Str(""));
    var given := Or(body.progressState, Str("inicializado"));
    var e := InsertUpdateRow(t, k, userId, comment, given, now);
    InsertUpdateKeeps(t, k, userId, comment, given, now);
    CheckAgreesWithIncludes(given);
    assert e.result.Ok?;
    var u := e.result.value.id;
    assert e.after.updates == t.updates[u := e.after.updates[u]];
    if Truthy(body.progressState) {
      var sets := [Assignment(ProgressCol, body.progressState)];
      CheckAgreesWithIncludes(body.progressState);
      UpdateTaskKeeps(e.after, taskId, sets, now);
      var e2 := UpdateTaskRow(e.after, taskId, sets, now);
      ProgressAssigned(t.tasks[k], body.progressState);
      assert e2.after.tasks == t.tasks[k := t.tasks[k].(progress := ParseProgress(body.progressState).value, updatedAt := now)];
    }
  }

  /**
   * The listing's conditions in the program's own terms: a truthy status, priority or
   * progress filter keeps the rows holding that enumeration value, and a truthy assignee
   * filter keeps the rows whose stored assignee equals it after INTEGER affinity.
   */
  lemma MatchesMeaning(row: TaskRow, f: Filters)
    ensures Matches(row, f) <==>
      (Truthy(f.status) ==> ParseStatus(f.status) == Some(row.status)) &&
      (Truthy(f.assignedTo) ==> row.assignedTo != SNull && row.assignedTo == IntegerAffinity(f.assignedTo)) &&
      (Truthy(f.priority) ==> ParsePriority(f.priority) == Some(row.priority)) &&
      (Truthy(f.progressState) ==> ParseProgress(f.progressState) == Some(row.progress))
  {
    StatusHoldsMeaning(row, f.status);
    PriorityHoldsMeaning(row, f.priority);
    ProgressHoldsMeaning(row, f.progressState);
    AssigneeHoldsMeaning(row, f.assignedTo);
  }

  lemma StatusHoldsMeaning(row: TaskRow, v: Value)
    ensures Holds(row, Condition(StatusCol, v)) <==> ParseStatus(v) == Some(row.status)
  {
    CheckAgreesWithIncludes(v);
    NamesParse(Admin, row.status, row.priority, row.progress);
  }

  lemma PriorityHoldsMeaning(row: TaskRow, v: Value)
    ensures Holds(row, Condition(PriorityCol, v)) <==> ParsePriority(v) == Some(row.priority)
  {
    CheckAgreesWithIncludes(v);
    NamesParse(Admin, row.status, row.priority, row.progress);
  }

  lemma ProgressHoldsMeaning(row: TaskRow, v: Value)
    ensures Holds(row, Condition(ProgressCol, v)) <==> ParseProgress(v) == Some(row.progress)
  {
    CheckAgreesWithIncludes(v);
    NamesParse(Admin, row.status, row.priority, row.progress);
  }

  lemma AssigneeHoldsMeaning(row: TaskRow, v: Value)
    ensures Holds(row, Condition(AssignedToCol, v)) <==> row.assignedTo != SNull && row.assignedTo == IntegerAffinity(v)
  {
  }

  /** A falsy filter (absent, `null`, `''`, `0`, `NaN`) constrains nothing. */
  lemma FalsyFilterIgnored(row: TaskRow, f: Filters)
    requires !Truthy(f.assignedTo)
    ensures Matches(row, f) <==> Matches(row, f.(assignedTo := Undefined))
  {
  }

  lemma StatusSetsDisjoint(t: Tables)
    ensures forall k :: k in StatusSet(t, Activo) ==> k !in StatusSet(t, Inactivo)
    ensures forall k :: k in StatusSet(t, Activo) + StatusSet(t, Inactivo) ==> k !in StatusSet(t, Status.Finalizado)
  {
  }

  lemma StatusSetsCover(t: Tables)
    ensures t.tasks.Keys == StatusSet(t, Activo) + StatusSet(t, Inactivo) + StatusSet(t, Status.Finalizado)
  {
    forall k | k in t.tasks
      ensures k in StatusSet(t, Activo) + StatusSet(t, Inactivo) + StatusSet(t, Status.Finalizado)
    {
      match t.tasks[k].status
      case Activo => assert k in StatusSet(t, Activo);
      case Inactivo => assert k in StatusSet(t, Inactivo);
      case Finalizado => assert k in StatusSet(t, Status.Finalizado);
    }
  }

  lemma DisjointCard(x: set<int>, y: set<int>)
    requires forall k :: k in x ==> k !in y
    ensures |x + y| == |x| + |y|
  {
    assert forall k :: k !in x * y;
    assert x * y == {};
  }
}
