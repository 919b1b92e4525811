/**
 * The task routes of backend/api/tasks.js: each handler runs the middleware gate, calls
 * the task model, turns a thrown error into a status code by looking for "not found" in
 * its message, and broadcasts an event to every connected client on success.
 */
module TaskApi {
  import opened Js
  import opened Wrappers
  import opened Sqlite
  import opened Text
  import opened Schema
  import opened Tasks
  import Users
  import opened Middleware
  import opened Http
  import opened Messages

  /** The events the routes emit with `io.emit`. */
  datatype Broadcast =
    | TaskCreated(created: TaskDetail)
    | TaskUpdated(updated: TaskDetail)
    | TaskDeleted(id: Value)
    | UpdateAdded(taskId: Value, update: Option<UpdateView>, task: TaskDetail)
    | TaskAssigned(taskId: Value, assignedTo: Value, assignedByName: Value, task: TaskDetail)
    | StatusChanged(taskId: Value, status: Value, changedByName: Value, task: TaskDetail)

  /** The bodies of successful answers. */
  datatype TaskJson =
    | Detail(detail: TaskDetail)
    | Listing(tasks: seq<TaskView>)
    | Added(update: Option<UpdateView>)
    | Deleted                              // { message: 'Task deleted successfully' }
    | Overview(stats: Stats)

  /** The query string of `GET /`. */
  datatype Query = Query(status: Value, assignedTo: Value, priority: Value)

  // ---------------------------------------------------------------------------
  // Error classification

  /** The status a handler answers a thrown error with: 404 when its message says "not found". */
  function Classify(m: string, otherwise: nat): nat {
    if Includes(m, "not found") then 404 else otherwise
  }

  /** The messages the SQLite driver gives for the constraints the task writes can violate. */
  const ConstrainedColumns: set<ColumnName> :=
    {ColumnName("tasks.", "title"), ColumnName("tasks.", "status"), ColumnName("tasks.", "priority"),
     ColumnName("tasks.", "progress_state"), ColumnName("tasks.", "created_by"),
     ColumnName("updates.", "user_id"), ColumnName("updates.", "progress_state")}

  predicate ConstraintError(m: string) {
    (exists c :: c in ConstrainedColumns && m == NotNullFailed(c)) || (exists k :: m == CheckFailed(k))
  }

  lemma ColumnClean(c: ColumnName)
    requires c in ConstrainedColumns
    ensures NoOverhang(c.table, "not found", 0) && NoOverhang(c.column, "not found", 0)
  {
    assert c.table == "tasks." || c.table == "updates.";
    assert c.column in {"title", "status", "priority", "progress_state", "created_by", "user_id"};
    ConstraintFailedTasksAvoidNotFound();
    ColumnNamesAvoidNotFound();
    ProgressStateColumnAvoidsNotFound();
  }

  lemma NotNullPieces(c: ColumnName)
    requires c in ConstrainedColumns
    ensures Clean(ConstraintPieces + ["NOT NULL ", "constraint ", "failed: ", c.table, c.column], "not found")
  {
    ColumnClean(c);
    SqliteKindsAvoidNotFound();
    ConstraintFailedTasksAvoidNotFound();
    ConstraintCodeAvoidsNotFound();
  }

  /** A constraint violation is assembled from pieces none of which can start "not found". */
  lemma DriverPieces(m: string) returns (ps: seq<string>)
    requires ConstraintError(m)
    ensures m == Concat(ps) && Clean(ps, "not found")
  {
    if exists c :: c in ConstrainedColumns && m == NotNullFailed(c) {
      var c :| c in ConstrainedColumns && m == NotNullFailed(c);
      ps := ConstraintPieces + ["NOT NULL ", "constraint ", "failed: ", c.table, c.column];
      NotNullPieces(c);
    } else {
      var k :| m == CheckFailed(k);
      ps := ConstraintPieces + ["CHECK ", "constraint ", "failed: "] + CheckExpression(k);
      CheckPieces(k);
    }
  }

  /** A refused assignment is a constraint violation on a task column. */
  lemma AssignError(row: TaskRow, a: Assignment)
    requires Assign(row, a).Err?
    ensures ConstraintError(Assign(row, a).message)
  {
    var c := TaskColumnName(a.column);
    assert c in ConstrainedColumns;
  }

  lemma AssignAllError(row: TaskRow, sets: seq<Assignment>)
    requires AssignAll(row, sets).Err?
    ensures ConstraintError(AssignAll(row, sets).message)
  {
    match FirstBroken(sets, NotNullKind)
    case Some(c) =>
      var i :| 0 <= i < |sets| && Breaks(sets[i], NotNullKind) && sets[i].column == c;
      AssignError(row, sets[i]);
    case None =>
      match FirstBroken(sets, CheckKind)
      case Some(c) =>
        var k := CheckOf(c);
        assert AssignAll(row, sets).message == CheckFailed(k);
      case None =>
        Applied(row, sets);
        assert false;
  }

  /** The UPDATE of a task fails only with a constraint violation. */
  lemma UpdateRowError(t: Tables, id: Value, sets: seq<Assignment>, now: nat)
    requires UpdateTaskRow(t, id, sets, now).result.Err?
    ensures ConstraintError(UpdateTaskRow(t, id, sets, now).result.message)
  {
    var k := Selected(t.tasks, id).value;
    AssignAllError(t.tasks[k], sets);
  }

  /** The prefixes of the task model's messages cannot start "not found". */
  lemma PrefixesClean()
    ensures Clean(FetchPrefix, "not found") && Clean(CreatePrefix, "not found") && Clean(UpdatePrefix, "not found")
    ensures Clean(DeletePrefix, "not found") && Clean(AddPrefix, "not found")
  {
    PrefixAvoidsNotFound();
  }

  /** The task model's refusals other than the two "not found" ones cannot start "not found". */
  lemma RefusalsClean()
    ensures Clean(TitleRequired, "not found") && Clean(PriorityInvalid, "not found")
    ensures Clean(StatusInvalid, "not found") && Clean(ProgressInvalid, "not found")
    ensures Clean(NoFields, "not found") && Clean(CommentOrStateRequired, "not found")
  {
    TitleRequiredClean();
    PriorityInvalidClean();
    StatusInvalidClean();
    ProgressInvalidClean();
    NoFieldsClean();
    CommentOrStateRequiredClean();
  }

  lemma TitleRequiredClean()
    ensures Clean(TitleRequired, "not found")
  {
    TaskAvoidsNotFound();
  }

  lemma PriorityInvalidClean()
    ensures Clean(PriorityInvalid, "not found")
  {
    TaskAvoidsNotFound();
  }

  lemma StatusInvalidClean()
    ensures Clean(StatusInvalid, "not found")
  {
    TaskAvoidsNotFound();
  }

  lemma ProgressInvalidClean()
    ensures Clean(ProgressInvalid, "not found")
  {
    TaskAvoidsNotFound();
  }

  lemma NoFieldsClean()
    ensures Clean(NoFields, "not found")
  {
    TaskAvoidsNotFound();
  }

  lemma CommentOrStateRequiredClean()
    ensures Clean(CommentOrStateRequired, "not found")
  {
    TaskAvoidsNotFound();
  }

  /** A message of the task model with `prefix` in front of an invalid-input message is not a 404. */
  lemma PrefixedClean(prefix: seq<string>, ps: seq<string>)
    requires Clean(prefix, "not found") && Clean(ps, "not found")
    ensures Classify(Wrap(prefix, Concat(ps)), 400) == 400
  {
    WrapExcludes(prefix, ps, "not found");
  }

  /** A driver message with a prefix in front is not a 404 either. */
  lemma PrefixedConstraint(prefix: seq<string>, m: string)
    requires Clean(prefix, "not found") && ConstraintError(m)
    ensures Classify(Wrap(prefix, m), 400) == 400
  {
    var ps := DriverPieces(m);
    WrapExcludes(prefix, ps, "not found");
  }

  /**
   * `PUT /:id`: a failed update is answered 404 exactly when the task does not exist or
   * the assignee does not exist; every other refusal and every constraint violation is 400.
   */
  lemma UpdateErrorStatus(t: Tables, id: Value, body: TaskBody, now: nat)
    requires Update(t, id, body, now).result.Err?
    ensures var m := Update(t, id, body, now).result.message;
      var refusal := UpdateRefusal(t, id, body);
      Classify(m, 400) == 404 <==> refusal == Some(TaskNotFound) || refusal == Some(AssigneeNotFound)
  {
    var m := Update(t, id, body, now).result.message;
    var refusal := UpdateRefusal(t, id, body);
    PrefixesClean();
    RefusalsClean();
    match refusal {
      case None =>
        UpdateRowError(t, id, Assignments(body), now);
        PrefixedConstraint(UpdatePrefix, UpdateTaskRow(t, id, Assignments(body), now).result.message);
      case Some(ps) =>
        assert m == Wrap(UpdatePrefix, Concat(ps));
        if ps == TaskNotFound {
          WrapIncludes(UpdatePrefix, ps, 1, "not found");
        } else if ps == AssigneeNotFound {
          WrapIncludes(UpdatePrefix, ps, 2, "not found");
        } else {
          PrefixedClean(UpdatePrefix, ps);
        }
    }
  }

  /**
   * `POST /:id/updates`: a failed progress update is answered 404 exactly when the task
   * does not exist and the body itself is acceptable; otherwise it is 400.
   */
  lemma AddUpdateErrorStatus(t: Tables, taskId: Value, body: UpdateBody, userId: Value, now: nat)
    requires AddUpdate(t, taskId, body, userId, now).result.Err?
    ensures var m := AddUpdate(t, taskId, body, userId, now).result.message;
      Classify(m, 400) == 404 <==>
        (Truthy(body.comment) || Truthy(body.progressState)) &&
        !(Truthy(body.progressState) && ParseProgress(body.progressState).None?) &&
        Selected(t.tasks, taskId).None?
  {
    var m := AddUpdate(t, taskId, body, userId, now).result.message;
    PrefixesClean();
    RefusalsClean();
    if !Truthy(body.comment) && !Truthy(body.progressState) {
      PrefixedClean(AddPrefix, CommentOrStateRequired);
    } else if Truthy(body.progressState) && ParseProgress(body.progressState).None? {
      PrefixedClean(AddPrefix, ProgressInvalid);
    } else if Selected(t.tasks, taskId).None? {
      WrapIncludes(AddPrefix, TaskNotFound, 1, "not found");
    } else {
      RecordErrorStatus(t, taskId, Selected(t.tasks, taskId).value, body.progressState, userId,
                        Or(body.comment, Str("")), Or(body.progressState, Str("inicializado")), now);
    }
  }

  /** A failure of the writes themselves is a constraint violation, answered 400. */
  lemma RecordErrorStatus(t: Tables, taskId: Value, k: int, progress: Value, userId: Value, comment: Value,
                          state: Value, now: nat)
    requires Record(t, taskId, k, progress, userId, comment, state, now).result.Err?
    ensures Classify(Record(t, taskId, k, progress, userId, comment, state, now).result.message, 400) == 400
  {
    PrefixesClean();
    var e := InsertUpdateRow(t, k, userId, comment, state, now);
    if e.result.Err? {
      assert ColumnName("updates.", "user_id") in ConstrainedColumns;
      assert ColumnName("updates.", "progress_state") in ConstrainedColumns;
      PrefixedConstraint(AddPrefix, e.result.message);
    } else {
      var e2 := UpdateTaskRow(e.after, taskId, [Assignment(ProgressCol, progress)], now);
      assert Truthy(progress) && e2.result.Err?;
      UpdateRowError(e.after, taskId, [Assignment(ProgressCol, progress)], now);
      PrefixedConstraint(AddPrefix, e2.result.message);
    }
  }

  /** `DELETE /:id`: the delete fails only for a missing task, and that is a 404. */
  lemma DeleteErrorStatus(t: Tables, id: Value)
    ensures Delete(t, id).result.Err? <==> Selected(t.tasks, id).None?
    ensures Delete(t, id).result.Err? ==> Classify(Delete(t, id).result.message, 500) == 404
  {
    if Selected(t.tasks, id).None? {
      WrapIncludes(DeletePrefix, TaskNotFound, 1, "not found");
    }
  }

  /** `GET /:id`: the only error the lookup gives is a 404. */
  lemma FetchErrorStatus()
    ensures Classify(Wrap(FetchPrefix, Concat(TaskNotFound)), 500) == 404
  {
    WrapIncludes(FetchPrefix, TaskNotFound, 1, "not found");
  }

  /**
   * Through `PUT /:id` an assignee that does not exist is a 404, although `POST /:id/assign`
   * answers the same assignee with 400 "Assigned user not found" before updating.
   */
  lemma UnknownAssigneeIsNotFound(t: Tables, id: Value, a: Value, now: nat)
    requires Selected(t.tasks, id).Some? && Truthy(a) && Selected(t.users, a).None?
    ensures var body := AssignBody(a);
      Update(t, id, body, now).result.Err? && Classify(Update(t, id, body, now).result.message, 400) == 404
  {
    UpdateErrorStatus(t, id, AssignBody(a), now);
  }

  // ---------------------------------------------------------------------------
  // The routes

  /** The filters `GET /` passes on: truthy fields only, `assigned_to` parsed, "null" as `null`. */
  function ListFilters(q: Query): (f: Filters)
    ensures f.progressState == Undefined
  {
    Filters(if Truthy(q.status) then q.status else Undefined,
            if !Truthy(q.assignedTo) then Undefined
            else if q.assignedTo == Str("null") then Null
            else ParseInt(ToText(q.assignedTo)),
            if Truthy(q.priority) then q.priority else Undefined,
            Undefined)
  }

  /** `?assigned_to=null` lists every task: the `null` filter is falsy and the model skips it. */
  lemma NullAssigneeQueryIgnored(row: TaskRow, q: Query)
    requires q.assignedTo == Str("null")
    ensures Matches(row, ListFilters(q)) <==> Matches(row, ListFilters(q.(assignedTo := Undefined)))
  {
    FalsyFilterIgnored(row, ListFilters(q));
  }

  /** `?assigned_to=<n>` selects the tasks assigned to user `n`, except that `0` parses to a falsy filter. */
  lemma NumericAssigneeQuery(row: TaskRow, q: Query, n: int)
    requires q.assignedTo == Str(DecimalString(n)) && !Truthy(q.status) && !Truthy(q.priority)
    ensures Matches(row, ListFilters(q)) <==> (n != 0 ==> row.assignedTo == SInt(n))
  {
    DecimalStartsNumeric(n);
    ParseIntDecimal(n);
    AssigneeFilter(q, DecimalString(n), Num(n));
    MatchesMeaning(row, ListFilters(q));
  }

  /** The filters of a query whose only field is a non-"null" assignee text that `parseInt` reads as `v`. */
  lemma AssigneeFilter(q: Query, s: string, v: Value)
    requires q.assignedTo == Str(s) && s != [] && s[0] != 'n' && ParseInt(s) == v
    requires !Truthy(q.status) && !Truthy(q.priority)
    ensures ListFilters(q) == Filters(Undefined, v, Undefined, Undefined)
  {
    assert s != "null" by { assert "null"[0] == 'n'; }
  }

  /** `?assigned_to=0x<h>` selects the tasks assigned to the user whose id the hexadecimal digits denote. */
  lemma HexAssigneeQuery(row: TaskRow, q: Query, h: string)
    requires h != [] && AllHexDigits(h) && q.assignedTo == Str("0x" + h) && !Truthy(q.status) && !Truthy(q.priority)
    ensures Matches(row, ListFilters(q)) <==> (HexValue(h) != 0 ==> row.assignedTo == SInt(HexValue(h)))
  {
    HexAssigneeFilter(q, h);
    MatchesMeaning(row, ListFilters(q));
  }

  lemma HexAssigneeFilter(q: Query, h: string)
    requires h != [] && AllHexDigits(h) && q.assignedTo == Str("0x" + h) && !Truthy(q.status) && !Truthy(q.priority)
    ensures ListFilters(q) == Filters(Undefined, Num(HexValue(h)), Undefined, Undefined)
  {
    var s := "0x" + h;
    assert s == ['0', 'x'] + h && s[0] == '0';
    ParseIntHex(h, 'x');
    AssigneeFilter(q, s, Num(HexValue(h)));
  }

  /** The list the route answers with, as `getAll` specifies it. */
  predicate Listed(t: Tables, f: Filters, r: seq<TaskView>) {
    (forall i :: 0 <= i < |r| ==> r[i].id in t.tasks && r[i] == ViewFor(t, r[i].id) && Matches(t.tasks[r[i].id], f)) &&
    (forall k :: k in t.tasks && Matches(t.tasks[k], f) ==> exists i :: 0 <= i < |r| && r[i].id == k) &&
    (forall i, j :: 0 <= i < j < |r| ==> r[i].id != r[j].id && r[i].row.createdAt >= r[j].row.createdAt)
  }

  /** `GET /` */
  method ListRoute(db: Store, session: SessionData, q: Query) returns (r: Reply<TaskJson>)
    ensures !SignedIn(Some(session)) ==> r == Fail(401, "Authentication required")
    ensures SignedIn(Some(session)) ==>
      r.status == 200 && r.payload.Json? && r.payload.value.Listing? &&
      Listed(db.State(), ListFilters(q), r.payload.value.tasks)
  {
    var gate := RequireAuth(Some(session));
    if gate.Deny? {
      return Fail(gate.status, gate.error);
    }
    var tasks := ListTasks(db, ListFilters(q));
    r := Send(200, Listing(tasks));
  }

  /** `GET /:id`: 404 with the model's message when the task does not exist. */
  method GetRoute(db: Store, session: SessionData, id: Value) returns (r: Reply<TaskJson>)
    ensures !SignedIn(Some(session)) ==> r == Fail(401, "Authentication required")
    ensures SignedIn(Some(session)) && Selected(db.tasks, id).None? ==>
      r == Fail(404, Wrap(FetchPrefix, Concat(TaskNotFound)))
    ensures SignedIn(Some(session)) && Selected(db.tasks, id).Some? ==>
      r.status == 200 && r.payload.Json? && r.payload.value.Detail? &&
      IsDetail(db.State(), Selected(db.tasks, id).value, r.payload.value.detail)
  {
    var gate := RequireAuth(Some(session));
    if gate.Deny? {
      return Fail(gate.status, gate.error);
    }
    var d := GetTask(db, id);
    match d {
      case Err(m) =>
        r := if Includes(m, "not found") then Fail(404, m) else Fail(500, "Failed to fetch task");
        FetchErrorStatus();
      case Ok(detail) =>
        r := Send(200, Detail(detail));
    }
  }

  /** `GET /stats/overview` */
  method StatsRoute(db: Store, session: SessionData) returns (r: Reply<TaskJson>)
    ensures !SignedIn(Some(session)) ==> r == Fail(401, "Authentication required")
    ensures SignedIn(Some(session)) ==> r == Send(200, Overview(GetStats(db.State())))
  {
    var gate := RequireAuth(Some(session));
    if gate.Deny? {
      return Fail(gate.status, gate.error);
    }
    r := Send(200, Overview(GetStats(db.State())));
  }

  /** `POST /`: the creator is the session's user; every failure is a 400 with the model's message. */
  method CreateRoute(db: Store, session: SessionData, body: TaskBody, now: nat)
    returns (r: Reply<TaskJson>, events: seq<Broadcast>)
    requires db.Valid()
    modifies db
    ensures db.Valid()
    ensures !SignedIn(Some(session)) ==>
      r == Fail(401, "Authentication required") && events == [] && db.State() == old(db.State())
    ensures SignedIn(Some(session)) ==>
      var s := Create(old(db.State()), body, session.userId, now);
      db.State() == s.after &&
      (s.result.Err? ==> r == Fail(400, s.result.message) && events == []) &&
      (s.result.Ok? ==> r.status == 201 && r.payload.Json? && r.payload.value.Detail? &&
                        IsDetail(db.State(), s.result.value, r.payload.value.detail) &&
                        events == [TaskCreated(r.payload.value.detail)])
  {
    var gate := RequireAuth(Some(session));
    if gate.Deny? {
      return Fail(gate.status, gate.error), [];
    }
    var c := CreateTask(db, body, session.userId, now);
    match c {
      case Err(m) =>
        r, events := Fail(400, m), [];
      case Ok(detail) =>
        r, events := Send(201, Detail(detail)), [TaskCreated(detail)];
    }
  }

  /** `PUT /:id`: 404 when the message says "not found", otherwise 400. */
  method UpdateRoute(db: Store, session: SessionData, id: Value, body: TaskBody, now: nat)
    returns (r: Reply<TaskJson>, events: seq<Broadcast>)
    requires db.Valid()
    modifies db
    ensures db.Valid()
    ensures !SignedIn(Some(session)) ==>
      r == Fail(401, "Authentication required") && events == [] && db.State() == old(db.State())
    ensures SignedIn(Some(session)) ==>
      var s := Update(old(db.State()), id, body, now);
      db.State() == s.after &&
      (s.result.Err? ==> r == Fail(Classify(s.result.message, 400), s.result.message) && events == []) &&
      (s.result.Ok? ==> r.status == 200 && r.payload.Json? && r.payload.value.Detail? &&
                        IsDetail(db.State(), s.result.value, r.payload.value.detail) &&
                        events == [TaskUpdated(r.payload.value.detail)])
  {
    var gate := RequireAuth(Some(session));
    if gate.Deny? {
      return Fail(gate.status, gate.error), [];
    }
    var u := UpdateTask(db, id, body, now);
    match u {
      case Err(m) =>
        r, events := Fail(Classify(m, 400), m), [];
      case Ok(detail) =>
        r, events := Send(200, Detail(detail)), [TaskUpdated(detail)];
    }
  }

  /**
   * `DELETE /:id`, behind the authentication and admin gates (`lookupFails` is a failed
   * role lookup): the event carries the id as the path gave it.
   */
  method DeleteRoute(db: Store, session: SessionData, id: Value, lookupFails: bool)
    returns (r: Reply<TaskJson>, events: seq<Broadcast>)
    requires db.Valid()
    modifies db
    ensures db.Valid()
    ensures RequireAdmin(Some(session), old(db.State()), lookupFails).Deny? ==>
      r == Fail(RequireAdmin(Some(session), old(db.State()), lookupFails).status,
                RequireAdmin(Some(session), old(db.State()), lookupFails).error) &&
      events == [] && db.State() == old(db.State())
    ensures RequireAdmin(Some(session), old(db.State()), lookupFails).Proceed? ==>
      var s := Delete(old(db.State()), id);
      db.State() == s.after &&
      (s.result.Err? ==> r == Fail(404, s.result.message) && events == []) &&
      (s.result.Ok? ==> r == Send(200, Deleted) && events == [TaskDeleted(id)])
  {
    var auth := RequireAuth(Some(session));
    if auth.Deny? {
      return Fail(auth.status, auth.error), [];
    }
    var admin := RequireAdmin(Some(session), db.State(), lookupFails);
    if admin.Deny? {
      return Fail(admin.status, admin.error), [];
    }
    ghost var before := db.State();
    var d := DeleteTask(db, id);
    match d {
      case Err(m) =>
        r := if Includes(m, "not found") then Fail(404, m) else Fail(500, "Failed to delete task");
        events := [];
        DeleteErrorStatus(before, id);
      case Ok(_) =>
        r, events := Send(200, Deleted), [TaskDeleted(id)];
    }
  }

  /**
   * `POST /:id/updates`: the new update (201) and an event carrying the task read back
   * with its history; a failure is 404 when its message says "not found", otherwise 400.
   */
  method AddUpdateRoute(db: Store, session: SessionData, id: Value, body: UpdateBody, now: nat)
    returns (r: Reply<TaskJson>, events: seq<Broadcast>)
    requires db.Valid()
    modifies db
    ensures db.Valid()
    ensures !SignedIn(Some(session)) ==>
      r == Fail(401, "Authentication required") && events == [] && db.State() == old(db.State())
    ensures SignedIn(Some(session)) ==>
      var s := AddUpdate(old(db.State()), id, body, session.userId, now);
      db.State() == s.after &&
      (s.result.Err? ==> r == Fail(Classify(s.result.message, 400), s.result.message) && events == []) &&
      (s.result.Ok? ==> r == Send(201, Added(s.result.value)) && |events| == 1 && events[0].UpdateAdded? &&
                        events[0].taskId == id && events[0].update == s.result.value &&
                        IsDetail(db.State(), Selected(db.tasks, id).value, events[0].task))
  {
    var gate := RequireAuth(Some(session));
    if gate.Deny? {
      return Fail(gate.status, gate.error), [];
    }
    ghost var before := db.State();
    var a := AddTaskUpdate(db, id, body, session.userId, now);
    if a.Err? {
      return Fail(Classify(a.message, 400), a.message), [];
    }
    AddUpdateKeepsTask(before, id, body, session.userId, now);
    var d := GetTask(db, id);
    match d {
      case Err(m) =>
        // the task was just found, so reading it back cannot fail
        assert false;
      case Ok(detail) =>
        r, events := Send(201, Added(a.value)), [UpdateAdded(id, a.value, detail)];
    }
  }

  /** After a successful progress update the task the parameter names still exists. */
  lemma AddUpdateKeepsTask(t: Tables, id: Value, body: UpdateBody, userId: Value, now: nat)
    requires AddUpdate(t, id, body, userId, now).result.Ok?
    ensures Selected(AddUpdate(t, id, body, userId, now).after.tasks, id).Some?
  {
  }

  /** The body `POST /:id/assign` hands to `update`: only `assigned_to`. */
  function AssignBody(a: Value): (body: TaskBody)
    ensures Assignments(body) == (if a == Undefined then [] else [Assignment(AssignedToCol, a)])
  {
    TaskBody(Undefined, Undefined, Undefined, Undefined, a, Undefined, Undefined, Undefined)
  }

  /**
   * `POST /:id/assign`: a truthy assignee that does not exist is refused with 400 before
   * anything is written; otherwise the task's `assigned_to` is updated (`null` unassigns).
   */
  method AssignRoute(db: Store, session: SessionData, id: Value, a: Value, now: nat)
    returns (r: Reply<TaskJson>, events: seq<Broadcast>)
    requires db.Valid()
    modifies db
    ensures db.Valid()
    ensures !SignedIn(Some(session)) ==>
      r == Fail(401, "Authentication required") && events == [] && db.State() == old(db.State())
    ensures SignedIn(Some(session)) && Truthy(a) && Users.GetById(old(db.State()), a).None? ==>
      r == Fail(400, "Assigned user not found") && events == [] && db.State() == old(db.State())
    ensures SignedIn(Some(session)) && !(Truthy(a) && Users.GetById(old(db.State()), a).None?) ==>
      var s := Update(old(db.State()), id, AssignBody(a), now);
      db.State() == s.after &&
      (s.result.Err? ==> r == Fail(Classify(s.result.message, 400), s.result.message) && events == []) &&
      (s.result.Ok? ==> r.status == 200 && r.payload.Json? && r.payload.value.Detail? &&
                        IsDetail(db.State(), s.result.value, r.payload.value.detail) &&
                        events == [TaskAssigned(id, a, session.userName, r.payload.value.detail)])
  {
    var gate := RequireAuth(Some(session));
    if gate.Deny? {
      return Fail(gate.status, gate.error), [];
    }
    if Truthy(a) {
      var assignee := Users.GetById(db.State(), a);
      if assignee.None? {
        return Fail(400, "Assigned user not found"), [];
      }
    }
    var u := UpdateTask(db, id, AssignBody(a), now);
    match u {
      case Err(m) =>
        r, events := Fail(Classify(m, 400), m), [];
      case Ok(detail) =>
        r, events := Send(200, Detail(detail)), [TaskAssigned(id, a, session.userName, detail)];
    }
  }

  /** The body `PATCH /:id/status` hands to `update`: only `status`. */
  function StatusBody(status: Value): (body: TaskBody)
    ensures Assignments(body) == (if status == Undefined then [] else [Assignment(StatusCol, status)])
  {
    TaskBody(Undefined, Undefined, status, Undefined, Undefined, Undefined, Undefined, Undefined)
  }

  /** `PATCH /:id/status`: anything but the three status names is 400 before anything is written. */
  method StatusRoute(db: Store, session: SessionData, id: Value, status: Value, now: nat)
    returns (r: Reply<TaskJson>, events: seq<Broadcast>)
    requires db.Valid()
    modifies db
    ensures db.Valid()
    ensures !SignedIn(Some(session)) ==>
      r == Fail(401, "Authentication required") && events == [] && db.State() == old(db.State())
    ensures SignedIn(Some(session)) && ParseStatus(status).None? ==>
      r == Fail(400, "Invalid status") && events == [] && db.State() == old(db.State())
    ensures SignedIn(Some(session)) && ParseStatus(status).Some? ==>
      var s := Update(old(db.State()), id, StatusBody(status), now);
      db.State() == s.after &&
      (s.result.Err? ==> r == Fail(404, s.result.message) && events == []) &&
      (s.result.Ok? ==> r.status == 200 && r.payload.Json? && r.payload.value.Detail? &&
                        IsDetail(db.State(), s.result.value, r.payload.value.detail) &&
                        r.payload.value.detail.task.row.status == ParseStatus(status).value &&
                        events == [StatusChanged(id, status, session.userName, r.payload.value.detail)])
  {
    var gate := RequireAuth(Some(session));
    if gate.Deny? {
      return Fail(gate.status, gate.error), [];
    }
    if ParseStatus(status).None? {
      return Fail(400, "Invalid status"), [];
    }
    ghost var before := db.State();
    StatusUpdateOutcome(before, id, status, now);
    var u := UpdateTask(db, id, StatusBody(status), now);
    match u {
      case Err(m) =>
        r, events := Fail(Classify(m, 400), m), [];
      case Ok(detail) =>
        r, events := Send(200, Detail(detail)), [StatusChanged(id, status, session.userName, detail)];
    }
  }

  /**
   * With a valid status name the status update fails only for a missing task, and
   * otherwise stores that status.
   */
  lemma StatusUpdateOutcome(t: Tables, id: Value, status: Value, now: nat)
    requires ParseStatus(status).Some?
    ensures var s := Update(t, id, StatusBody(status), now);
      (s.result.Err? <==> Selected(t.tasks, id).None?) &&
      (s.result.Err? ==> Classify(s.result.message, 400) == 404) &&
      (s.result.Ok? ==> s.result.value in s.after.tasks && s.after.tasks[s.result.value].status == ParseStatus(status).value)
  {
    var body := StatusBody(status);
    if Selected(t.tasks, id).None? {
      WrapIncludes(UpdatePrefix, TaskNotFound, 1, "not found");
    } else {
      var k := Selected(t.tasks, id).value;
      var row := t.tasks[k];
      var a := Assignment(StatusCol, status);
      assert UpdateRefusal(t, id, body).None?;
      assert TextAffinity(status) == SText(status.s);
      assert Assign(row, a) == Ok(row.(status := ParseStatus(status).value));
      Applied(row, [a]);
      assert AssignAll(row, [a]) == Ok(row.(status := ParseStatus(status).value));
    }
  }
}
