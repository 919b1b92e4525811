# Task manager: a verified model

This project models the core of a small collaborative task tracker. The tracker has a Node
back end storing users, tasks and progress updates in SQLite, session-based login, REST
routes, a Socket.io presence roster, and a browser client that keeps a cached task list in
step with server broadcasts. The model is written in Dafny and every contract below is
proved.

The modules follow the program's structure:

| module (file) | models |
|---|---|
| `Js` (js.dfy) | the JavaScript values the code handles (`undefined`, `null`, `NaN`, integers, texts), truthiness, `\|\|`, `===`, `==`, `parseInt`, `Number`, `String`, `trim` |
| `Sqlite` (sqlite.dfy) | column cells, SQLite's TEXT and INTEGER affinity, how `WHERE id = ?` matches a key |
| `Text`, `Messages` (text.dfy, messages.dfy) | `message.includes(...)`: the substring tests the routes use to map errors to status codes |
| `Ordering` (ordering.dfy) | the `ORDER BY` results (descending by time, ascending by name; ties unspecified) |
| `Schema` (schema.dfy) | backend/models/database.js: tables, NOT NULL/CHECK/UNIQUE rules, AUTOINCREMENT ids, the driver's `run`, the default admin |
| `Migration` (migration.dfy) | `migrateProgressToStates` |
| `Users`, `Tasks` (users.dfy, tasks.dfy) | backend/models/User.js and Task.js |
| `Middleware` (middleware.dfy) | backend/middleware/auth.js |
| `Http`, `AuthApi`, `TaskApi`, `UserApi` | the routes of backend/api/auth.js, tasks.js, users.js: status codes, bodies and emitted events |
| `Presence` (presence.dfy) | the `connectedUsers` roster and per-socket state of backend/server.js |
| `Client` (client.dfy) | frontend/js/app.js: cache reconciliation, filters, permission, pre-submit checks |

The database is a value of type `Tables`: one map per table plus the AUTOINCREMENT counters
and `lastID`. `Schema.Store` is the one mutable object. The model operations are functions
from `Tables` to a `Step` (the new tables plus a result or an error message). The methods
on the store run them and are proved to leave the store exactly in that state. Error
messages are kept as the source builds them (`'Error creating task: ' + error.message`), so
the routes' `includes('not found')` tests are modelled as substring tests on those texts.
The SQLite driver's constraint messages are kept too: a CHECK failure names the constraint's
expression as the CREATE TABLE statement writes it (`CHECK constraint failed: status IN
('activo', 'inactivo', 'finalizado')`). A statement that breaks several constraints reports
the one SQLite tests first: every NOT NULL constraint before any CHECK, each kind in the
order the table declares its columns.

Where the code and its accompanying description disagree, the model follows the code, with
one exception: deleting a task removes its updates, as the schema's `ON DELETE CASCADE` says,
although the connection never switches foreign keys on. That discrepancy is the first row of
"## Findings"; `Schema.OrphansUnseen` proves the difference is confined to the deleted
task's own updates, which no later read reaches. Otherwise:
- An `assigned_to=null` query is dropped from the listing filters: `null` is falsy in `getAll`.
- `PUT /api/tasks/:id` with an unknown assignee answers 404, because "Assigned user not found" contains "not found".
- `User.update` on a missing id raises nothing, so the route answers 200 with `res.json(undefined)`, an empty body.
- `POST /api/users` with an invalid role answers 500: only "already exists" maps to 409.
- A `user:join` whose `id` is falsy (0) adds a roster entry that `disconnect` never removes.

## Model

| member | source | states |
|---|---|---|
| Js.DecimalRoundTrip | backend/api/tasks.js:16 | printing an integer and reading it back as an integer literal gives the integer |
| Js.Trim | frontend/js/app.js:183 | `trim()` gives a slice of the text, cuts only ECMAScript white space and line terminators from either end, and leaves none at either end |
| Js.TrimEmpty | frontend/js/app.js:183-188 | `trim()` gives the empty text exactly when every character is ECMAScript white space or a line terminator |
| Js.TrimNoSpace | frontend/js/app.js:183 | trimming a text with no ECMAScript white space or line terminator at either end changes nothing |
| Js.ToNumber | frontend/js/app.js:834 | `Number` of a text is an integer or NaN, and 0 for a text of white space only |
| Js.LooseEq | frontend/js/app.js:834 | `==` never holds when either side is NaN |
| Js.LooseEqSymmetric | frontend/js/app.js:834 | `==` is symmetric |
| Js.StrictImpliesLoose | frontend/js/app.js:834 | `===` implies `==` |
| Js.NumberMeetsLiteral | frontend/js/app.js:455 | `Number` of an integer literal is the integer it denotes, so a number loosely equals every integer literal denoting it, and it strictly equals no text |
| Js.ParseInt | backend/api/users.js:99 | `parseInt` of a text is an integer or NaN |
| Js.ParseIntDecimal | backend/api/users.js:99 | `parseInt` reads back the decimal text of any integer |
| Js.ParseIntHex | backend/api/users.js:99 | `parseInt` reads a `0x`/`0X` text as hexadecimal, and the bare prefix as NaN |
| Js.ParseIntSignedHex | backend/api/users.js:99 | a sign in front of a `0x` text is applied to its hexadecimal value |
| Sqlite.TextAffinity | backend/models/database.js:42-51 | a value bound to a TEXT column becomes NULL exactly when it is not a number or a text |
| Sqlite.IntegerAffinity | backend/models/database.js:46-47 | a value bound to an INTEGER column becomes NULL exactly when it is not a number or a text |
| Sqlite.KeyMatchesDecimal | backend/models/Task.js:83 | `WHERE id = ?` finds key k both for the number k and for its decimal text |
| Sqlite.KeyMatchesText | backend/models/Task.js:156 | a text parameter finds key k exactly when it is an integer literal of k |
| Sqlite.IntegerAffinityEcho | backend/models/database.js:46-50 | a number or text stored in an INTEGER column reads back `==` to what was bound, and unchanged unless it was an integer literal text |
| Sqlite.KeyMatchesLoosely | backend/models/Task.js:239 | a parameter that finds key k is `==` to k |
| Sqlite.KeyMatchUnique | backend/models/Task.js:239 | a parameter finds at most one key; a differing one is neither null nor undefined |
| Sqlite.TextRoundTrip | backend/models/Task.js:104 | a text stored in a TEXT column reads back unchanged |
| Schema.ParseRole | backend/models/database.js:34 | an accepted role is the text of that role |
| Schema.ParseStatus | backend/models/database.js:44 | an accepted status is the text of that status |
| Schema.ParsePriority | backend/models/database.js:45 | an accepted priority is the text of that priority |
| Schema.ParseProgress | backend/models/database.js:51 | an accepted progress state is the text of that state |
| Schema.Wellformed | backend/models/database.js:29-68 | in a well-formed database the next id each AUTOINCREMENT counter hands out is free |
| Schema.CheckFailed | backend/models/database.js:34-63 | the CHECK failure message of each constraint names its expression, and never reads as "not found" |
| Schema.NamesParse | backend/models/database.js:34-51 | every stored enumeration value's text is accepted by its CHECK and parses back to itself |
| Schema.DecimalStartsNumeric | backend/models/database.js:46 | the text of a number starts with a digit or `-`, so INTEGER affinity converts it |
| Schema.CheckAgreesWithIncludes | backend/models/Task.js:120 | the CHECK on a stored cell accepts exactly what the JavaScript `includes` test accepts |
| Schema.Selected | backend/models/Task.js:156 | `SELECT ... WHERE id = ?` finds a row exactly when some key matches the parameter, and then a matching one |
| Schema.UserNamed | backend/models/User.js:32-42 | `WHERE name = ?` finds a user exactly when the text-converted name is held, and returns its holder |
| Schema.FirstBroken | backend/models/database.js:40-52 | the column named is one some assignment breaks, none is named exactly when no assignment breaks that kind of constraint, and no broken column is declared before it |
| Schema.AssignAll | backend/models/Task.js:224-228 | an UPDATE's SET list never changes `created_by` or `created_at` |
| Schema.AssignAllReports | backend/models/database.js:40-52 | when several assignments break constraints, a NULL in a NOT NULL column is reported before any CHECK failure, and the column declared first is named |
| Schema.NullPriorityBeforeBadStatus | backend/models/database.js:44-45 | `status = ''` with `priority = NULL` reports the NOT NULL constraint of `tasks.priority`, not the status CHECK |
| Schema.AssignEffect | backend/models/Task.js:224-228 | one accepted assignment writes its column with the column's affinity and leaves every other column alone |
| Schema.AssignRefused | backend/models/database.js:42-51 | an assignment fails exactly for NULL in a NOT NULL column or a value a CHECK rejects |
| Schema.AssignAllEffect | backend/models/Task.js:224-228 | an accepted SET list writes exactly its columns and leaves the others unchanged |
| Schema.AssignAllRefused | backend/models/Task.js:224-228 | a SET list fails exactly when one of its assignments does, whatever their columns |
| Schema.ProgressAssigned | backend/models/Task.js:282-287 | `SET progress_state = ?` with an accepted state stores exactly that state in the row |
| Schema.WithoutCascadeLeavesOrphans | backend/models/database.js:65 | deleting a task without the cascade leaves an update pointing at no task; with the cascade the tables stay well formed |
| Schema.OrphansUnseen | backend/models/database.js:65 | with or without the cascade a delete reports the same result, leaves the same users, tasks and counters, and gives every remaining task the same updates; a leftover update's task id never exceeds the counter, so no later task inherits it |
| Schema.InsertUserRow | backend/models/User.js:64-67 | the INSERT touches only `users`; on failure nothing changes; on success it reports the next id and one change and adds exactly that id |
| Schema.UpdateUserRow | backend/models/User.js:98-101 | the UPDATE keeps the ids and the other tables; on failure nothing changes; no matching id means 0 changes and nothing written |
| Schema.DeleteUserRow | backend/models/User.js:122 | the DELETE always runs, touches only `users`, never adds an id, and with 0 changes leaves everything as it was |
| Schema.InsertTaskRow | backend/models/Task.js:132-142 | the INSERT touches only `tasks`; on failure nothing changes; on success it reports the next id and adds exactly that id |
| Schema.UpdateTaskRow | backend/models/Task.js:224-228 | the UPDATE keeps the task ids and the other tables; on failure nothing changes; no matching id means 0 changes |
| Schema.DeleteTaskRow | backend/models/Task.js:239 | the DELETE always runs, keeps the users, never adds a task or an update, and with 0 changes leaves everything as it was |
| Schema.InsertUpdateRow | backend/models/Task.js:271-279 | the INSERT touches only `updates`; on failure nothing changes; on success it adds exactly the next id, for the given task |
| Schema.InsertUserKeeps | backend/models/User.js:64-67 | an INSERT into users keeps the tables well formed, adds one fresh id on success and changes nothing on failure |
| Schema.UpdateUserKeeps | backend/models/User.js:98-101 | an UPDATE of users keeps the set of ids, reports 0 changes exactly for a missing id and changes nothing on failure |
| Schema.DeleteUserKeeps | backend/models/User.js:122 | a DELETE from users removes exactly the matching ids and reports 0 changes exactly when none matched |
| Schema.InsertTaskKeeps | backend/models/Task.js:132-142 | an INSERT into tasks adds one fresh row with no updates, or changes nothing on failure |
| Schema.UpdateTaskKeeps | backend/models/Task.js:224-228 | an UPDATE of tasks keeps the ids and the other tables, and changes nothing on failure |
| Schema.DeleteTaskKeeps | backend/models/Task.js:239 | deleting a task removes exactly the matching row and, by the cascade, exactly its updates |
| Schema.InsertUpdateKeeps | backend/models/Task.js:271-279 | an INSERT into updates adds one fresh row, or changes nothing on failure |
| Schema.Store.constructor | backend/models/database.js:29-68 | a new store is empty and valid |
| Schema.Store.Commit | backend/models/database.js:210-220 | the store takes the given tables |
| Schema.Store.Run | backend/models/database.js:210-220 | `run` leaves the store in the statement's resulting state and reports its result |
| Schema.Store.CreateDefaultAdmin | backend/models/database.js:166-194 | seeding keeps the store valid and applies `SeedAdmin` |
| Schema.SeedAdmin | backend/models/database.js:166-194 | seeding never touches tasks or updates and never removes or alters a user |
| Schema.SeedAdminEffect | backend/models/database.js:166-194 | with no users, one admin named "admin" is inserted; otherwise nothing changes; seeding twice equals seeding once |
| Migration.ProgressToState | backend/models/database.js:124-129 | the CASE maps 1..99 to "en proceso", 100 to "finalizado" and everything else to "inicializado" |
| Migration.ProgressToStateMonotone | backend/models/database.js:124-129 | more progress never maps to an earlier state |
| Migration.Migrate | backend/models/database.js:99-163 | afterwards `progress_state` exists, rows and ids are kept, legacy rows are mapped by the CASE, and `progress` survives only when the drop fails |
| Migration.MigrateIdempotent | backend/models/database.js:99-163 | running the migration again changes nothing |
| Ordering.TextLeTotal | backend/models/User.js:138 | the text order is total |
| Ordering.TextLeTransitive | backend/models/User.js:138 | the text order is transitive |
| Ordering.TextLeAntisymmetric | backend/models/User.js:138 | the text order is antisymmetric |
| Ordering.SortDescending | backend/models/Task.js:52 | `ORDER BY ... DESC` lists every key once, in descending order |
| Ordering.SortAscendingByName | backend/models/User.js:138 | `ORDER BY name` lists every key once, in ascending name order |
| Users.GetById | backend/models/User.js:19-29 | a user is returned exactly when some id matches, and it is that stored user |
| Users.GetByName | backend/models/User.js:32-42 | a user is returned exactly when one holds the name, and it is that user |
| Users.IsAdmin | backend/models/User.js:148-158 | true exactly when the matching stored user has role admin |
| Users.GetAll | backend/models/User.js:5-16 | every user exactly once, newest first |
| Users.GetByRole | backend/models/User.js:135-145 | exactly the users with the role, each once, in name order |
| Users.Create | backend/models/User.js:45-73 | creating a user touches only `users`; a refusal changes nothing; success adds exactly the next id |
| Users.Update | backend/models/User.js:76-107 | updating a user keeps the ids and the other tables; a refusal changes nothing |
| Users.AssignedCount | backend/models/User.js:113-116 | the count is at most the number of tasks, and zero exactly when no task is assigned to the id |
| Users.Delete | backend/models/User.js:110-132 | deleting a user touches only `users` and never adds one; a refusal changes nothing |
| Users.CreateUser | backend/models/User.js:45-73 | the store ends in `Create`'s state and the result is `Create`'s |
| Users.UpdateUser | backend/models/User.js:76-107 | the store ends in `Update`'s state and the result is `Update`'s |
| Users.DeleteUser | backend/models/User.js:110-132 | the store ends in `Delete`'s state and the result is `Delete`'s |
| Users.CreateRejects | backend/models/User.js:50-62 | missing name or role, a bad role and a taken name are refused in that order, leaving the tables unchanged |
| Users.CreateSucceeds | backend/models/User.js:64-69 | a valid new name is inserted under a fresh id and the new user is returned |
| Users.InsertUserFresh | backend/models/User.js:64-67 | the INSERT of an untaken name stores one row under the next id and touches no other table |
| Users.UpdateKeepsOwnName | backend/models/User.js:89-103 | a user may keep their own name; only their role and name are rewritten |
| Users.UpdateRejectsTakenName | backend/models/User.js:89-96 | a name held by another user is refused and nothing changes |
| Users.UpdateMissingUser | backend/models/User.js:98-103 | updating a missing id succeeds with no user and changes nothing |
| Users.DeleteBlockedByAssignment | backend/models/User.js:113-120 | a user with an assigned task is not deleted |
| Users.DeleteUnassigned | backend/models/User.js:122-128 | otherwise the matching user is removed, or "User not found" when none matches |
| Tasks.NameOf | backend/models/Task.js:23-24 | a LEFT JOIN yields a name exactly when the cell refers to a stored user |
| Tasks.ViewFor | backend/models/Task.js:8-24 | the listed view of key k is row k |
| Tasks.AuthorOf | backend/models/Task.js:98-99 | an update is listed exactly when its author exists (inner JOIN) |
| Tasks.GetTask | backend/models/Task.js:62-108 | "Task not found" exactly when no row matches; otherwise the row with its updates |
| Tasks.AllHoldAppend | backend/models/Task.js:30-49 | appending clauses conjoins their conditions |
| Tasks.AllHoldWhen | backend/models/Task.js:31-34 | a clause added under a test holds or the test was false |
| Tasks.ConditionsMeaning | backend/models/Task.js:30-49 | the WHERE clauses built hold exactly for the rows matching the filters |
| Tasks.BuildConditions | backend/models/Task.js:28-49 | the clause list built step by step equals the specified conditions |
| Tasks.ListTasks | backend/models/Task.js:5-59 | exactly the matching tasks, each once, newest first |
| Tasks.BuildAssignments | backend/models/Task.js:185-215 | the SET list pushed step by step equals the specified assignments |
| Tasks.Create | backend/models/Task.js:111-148 | creating a task touches only `tasks`; a refusal changes nothing; success returns the next id and adds exactly it |
| Tasks.Update | backend/models/Task.js:151-234 | updating a task keeps the ids and the other tables; a refusal changes nothing; success returns the matching key; a failing UPDATE reports its error as `Schema.AssignAllReports` orders them |
| Tasks.Delete | backend/models/Task.js:237-249 | deleting keeps the users and never adds a task; it succeeds exactly when some key matches; a failure changes nothing |
| Tasks.AddUpdate | backend/models/Task.js:252-304 | adding an update keeps the users and the task ids; for a missing task it fails and changes nothing |
| Tasks.Record | backend/models/Task.js:271-303 | the writes keep the users and the task ids, add at most the next update id and, in a well-formed database, leave every earlier update as it was |
| Tasks.CreateTask | backend/models/Task.js:111-148 | the store ends in `Create`'s state; success returns the new task's detail |
| Tasks.WriteCreate | backend/models/Task.js:132-147 | the INSERT with the defaulted values is run; a driver error is wrapped with the create prefix, success returns the new row's detail |
| Tasks.UpdateTask | backend/models/Task.js:151-234 | the store ends in `Update`'s state; success returns the task's detail |
| Tasks.CheckUpdate | backend/models/Task.js:156-219 | the checks run against the store report exactly the refusal `UpdateRefusal` gives, and change nothing |
| Tasks.WriteUpdate | backend/models/Task.js:221-230 | the UPDATE is run and its driver error is wrapped with the update prefix |
| Tasks.DeleteTask | backend/models/Task.js:237-249 | the store ends in `Delete`'s state and the result is `Delete`'s |
| Tasks.AddTaskUpdate | backend/models/Task.js:252-304 | the store ends in `AddUpdate`'s state and the result is `AddUpdate`'s |
| Tasks.WriteRecord | backend/models/Task.js:271-303 | the INSERT and, for a given progress state, the progress UPDATE leave the store and the result as `Record` gives them |
| Tasks.CreateRejects | backend/models/Task.js:116-130 | a falsy title, a bad (defaulted) priority and an unknown truthy assignee are refused in that order, tables unchanged |
| Tasks.CreateStores | backend/models/Task.js:132-144 | a valid task is stored under a fresh id with description '', priority media and assignee null by default, created by the caller; a truthy description and the due date are stored with their column's affinity |
| Tasks.CreateEchoes | backend/models/Task.js:132-147 | reading the created task back gives the title's text, the description, the (defaulted) priority, and an assignee and due date `==` to what was sent, unchanged unless an integer literal text was sent |
| Tasks.CreateIgnoresBodyCreator | backend/models/Task.js:113 | the body's `created_by` has no effect |
| Tasks.UpdateMissingTask | backend/models/Task.js:155-159 | a missing id is "Task not found" before any validation |
| Tasks.UpdateRejects | backend/models/Task.js:161-182 | status, priority and progress state are checked only when truthy, then the assignee, in that order |
| Tasks.UpdateNoFields | backend/models/Task.js:217-219 | a body with no defined field is "No fields to update" |
| Tasks.UpdateNullStatus | backend/models/Task.js:196-199 | an explicit null status passes validation and fails the NOT NULL constraint |
| Tasks.UpdateNullPriorityBadStatus | backend/models/Task.js:161-169 | `{status: "", priority: null}` passes both truthiness guards and fails with the priority NOT NULL message |
| Tasks.AssignmentsMeaning | backend/models/Task.js:188-215 | the SET list holds exactly the fields that are not undefined, once each, in source order |
| Tasks.AssignmentsBuilt | backend/models/Task.js:188-215 | the seven pushes build that list |
| Tasks.AppendColumn | backend/models/Task.js:188-215 | each push extends the list by exactly its column when supplied |
| Tasks.UpdateWritesExactly | backend/models/Task.js:185-228 | a successful update writes exactly the supplied fields, refreshes `updated_at` and leaves every other row alone |
| Tasks.UpdateClearsAssignee | backend/models/Task.js:204-207 | an explicit null assignee clears the column |
| Tasks.DeleteEffect | backend/models/Task.js:237-249 | "Task not found" exactly when no row matched; otherwise the task and its updates are gone |
| Tasks.AddUpdateRejects | backend/models/Task.js:256-269 | no comment and no state, then a bad state, then a missing task, in that order, tables unchanged |
| Tasks.AddUpdateEffect | backend/models/Task.js:271-300 | the update is stored with defaults '' and inicializado, and the task's state changes only when one was supplied |
| Tasks.MatchesMeaning | backend/models/Task.js:30-49 | a row matches exactly when it meets every truthy filter |
| Tasks.FalsyFilterIgnored | backend/models/Task.js:36-39 | a falsy assignee filter, `null` included, constrains nothing |
| Tasks.GetStats | backend/models/Task.js:307-323 | the total counts every task, the status counts add up to it and the unassigned count is at most it |
| Middleware.RequireAuth | backend/middleware/auth.js:4-9 | proceeds exactly for a session with a truthy user id, else 401 |
| Middleware.RequireAdmin | backend/middleware/auth.js:12-27 | proceeds exactly for a signed-in stored admin; 401, 500 and 403 otherwise |
| Middleware.GetCurrentUser | backend/middleware/auth.js:30-40 | sets `req.user` to the lookup exactly when signed in and the lookup works |
| Middleware.RequireAdminIgnoresSessionRole | backend/middleware/auth.js:18 | the session's own role claim never changes the admin gate |
| Middleware.RequireAdminStoredRole | backend/middleware/auth.js:18-21 | a claimed admin without the stored role is refused; a stored admin passes without the claim |
| Middleware.AdminImpliesAuth | backend/middleware/auth.js:12-16 | passing the admin gate implies passing the authentication gate |
| AuthApi.Session.constructor | backend/api/auth.js:41-49 | a fresh session holds no user |
| AuthApi.Session.Login | backend/api/auth.js:7-38 | 400 without a name, 500 on a lookup error, 401 for an unknown name; only success records the user in the session |
| AuthApi.Session.Logout | backend/api/auth.js:41-49 | the session is emptied unless destroying it fails (500) |
| AuthApi.StatusOf | backend/api/auth.js:72-85 | authenticated exactly when the session has a truthy user id, echoing the session's fields |
| AuthApi.MeOf | backend/api/auth.js:52-69 | 401 without a session or without a stored user; otherwise the stored user |
| AuthApi.LoginThenStatus | backend/api/auth.js:7-85 | after a successful login the status route reports that user |
| AuthApi.LogoutThenStatus | backend/api/auth.js:41-85 | after a logout the status route reports no user |
| AuthApi.StatusOutlivesUser | backend/api/auth.js:52-85 | for a deleted user the status route still says authenticated while `/me` answers 401 |
| TaskApi.UpdateErrorStatus | backend/api/tasks.js:78-86 | a failed update answers 404 exactly for a missing task or an unknown assignee, else 400 |
| TaskApi.AddUpdateErrorStatus | backend/api/tasks.js:130-138 | a failed progress update answers 404 exactly when the task is missing after the input checks pass |
| TaskApi.RecordErrorStatus | backend/api/tasks.js:130-138 | a failure of the progress writes themselves answers 400 |
| TaskApi.DeleteErrorStatus | backend/api/tasks.js:101-108 | deletion fails exactly for a missing task, and that answers 404 |
| TaskApi.FetchErrorStatus | backend/api/tasks.js:36-44 | a missing task on GET answers 404 |
| TaskApi.UnknownAssigneeIsNotFound | backend/api/tasks.js:153-187 | assigning a task to an unknown user through PUT answers 404 |
| TaskApi.ListFilters | backend/api/tasks.js:9-21 | the listing never filters on progress state |
| TaskApi.NullAssigneeQueryIgnored | backend/api/tasks.js:15-17 | `assigned_to=null` lists the same tasks as no assignee filter |
| TaskApi.NumericAssigneeQuery | backend/api/tasks.js:15-17 | `assigned_to=n` lists exactly the tasks assigned to n (none dropped for n = 0, which is falsy) |
| TaskApi.HexAssigneeQuery | backend/api/tasks.js:15-17 | `assigned_to=0x...` lists exactly the tasks assigned to its hexadecimal value (all tasks for 0, which is falsy) |
| TaskApi.ListRoute | backend/api/tasks.js:7-29 | 401 without a session; otherwise 200 with the listing for the query's filters |
| TaskApi.GetRoute | backend/api/tasks.js:32-45 | 401, 404 for a missing task, otherwise 200 with its detail |
| TaskApi.StatsRoute | backend/api/tasks.js:142-150 | 401, otherwise 200 with the counts |
| TaskApi.CreateRoute | backend/api/tasks.js:48-64 | 201 with the task and one `task:created`, or 400 with the message and no event |
| TaskApi.UpdateRoute | backend/api/tasks.js:67-87 | 200 and `task:updated`, or the message with 404 or 400 per its text |
| TaskApi.DeleteRoute | backend/api/tasks.js:90-109 | after the admin gate: 200 and `task:deleted` with the path id, or 404 |
| TaskApi.AddUpdateRoute | backend/api/tasks.js:112-139 | 201 with the update and `task:update_added` carrying the path id and the task, or 404/400 |
| TaskApi.AddUpdateKeepsTask | backend/api/tasks.js:121-122 | the task re-read after a progress update still exists |
| TaskApi.AssignBody | backend/api/tasks.js:160-167 | the body built for an assignment writes only `assigned_to` |
| TaskApi.AssignRoute | backend/api/tasks.js:153-187 | an unknown truthy assignee is 400 with no change; otherwise the update with `task:assigned` |
| TaskApi.StatusBody | backend/api/tasks.js:199-200 | the body built for a status change writes only `status` |
| TaskApi.StatusRoute | backend/api/tasks.js:190-219 | an invalid status is 400; a missing task 404; otherwise the status is stored with `task:status_changed` |
| TaskApi.StatusUpdateOutcome | backend/api/tasks.js:199-213 | a valid status fails exactly for a missing task (404) and otherwise is stored |
| UserApi.CreateErrorStatus | backend/api/users.js:58-66 | a failed creation contains "already exists" (409) exactly when the inputs pass and the name is taken |
| UserApi.UpdateErrorStatus | backend/api/users.js:80-90 | a failed update never says "not found"; it says "already exists" exactly when another user holds the name |
| UserApi.DeleteErrorStatus | backend/models/User.js:110-132 | deletion fails exactly for a user with tasks or a missing user, saying "assigned tasks" or "not found" accordingly |
| UserApi.OwnIdRecognised | backend/api/users.js:98-101 | the path text of one's own id is recognised by the self-deletion check |
| UserApi.OwnHexIdRecognised | backend/api/users.js:98-101 | a `0x` path text of one's own id is recognised by the self-deletion check as well |
| UserApi.ListRoute | backend/api/users.js:7-15 | the admin gate's refusal, or every user |
| UserApi.RoleRoute | backend/api/users.js:18-32 | 400 "Invalid role", else the users with that role, each once, in name order |
| UserApi.RoleSelection | backend/api/users.js:22-27 | a valid role text selects exactly the users with that role |
| UserApi.MeRoute | backend/api/users.js:35-46 | 404 for a session whose user is gone, else that user |
| UserApi.CreateRoute | backend/api/users.js:49-67 | 201 with the new user; 409 for a taken name; 500 otherwise |
| UserApi.UpdateRoute | backend/api/users.js:70-91 | 200 with the user (an empty body, `res.json(undefined)`, when the id is missing); 409 for a taken name; 500 otherwise |
| UserApi.DeleteRoute | backend/api/users.js:94-115 | 400 for one's own id, 404, 400 for assigned tasks, else 200 |
| Presence.SetEntry | backend/server.js:68-74 | `connectedUsers.set`: the entry is present afterwards, the size grows by at most one, and a new entry goes last |
| Presence.SetEntryPlace | backend/server.js:68-74 | every earlier entry keeps its place; only one under the same key takes the new value |
| Presence.SetEntryMap | backend/server.js:68-74 | `connectedUsers.set` keeps keys unique and updates the map at the socket id |
| Presence.SetEntryKeys | backend/server.js:68-74 | `set` introduces no entry other than the new one |
| Presence.SetEntryLength | backend/server.js:68-74 | `set` on a present key keeps the size; on a new key it grows by one |
| Presence.DeleteEntry | backend/server.js:127 | `connectedUsers.delete` keeps only earlier entries; an absent key changes nothing; a present one costs exactly one entry |
| Presence.DeleteEntryMap | backend/server.js:127 | `connectedUsers.delete` keeps keys unique and removes exactly the socket id |
| Presence.Without | backend/server.js:127 | the roster without a socket holds exactly the other entries |
| Presence.Server.constructor | backend/server.js:59 | no sockets, no roster, no emissions |
| Presence.Server.Connect | backend/server.js:59-61 | a new socket joins with empty state |
| Presence.Server.Join | backend/server.js:63-83 | the socket takes the user's fields and role room, the roster is `set`, and `users:updated` goes to all |
| Presence.Server.Viewing | backend/server.js:86-99 | the socket records the task and joins its room; the other viewers get `task:viewer_joined` |
| Presence.Server.StopViewing | backend/server.js:102-115 | the socket clears its task and leaves the room; the other viewers get `task:viewer_left` |
| Presence.Server.Disconnect | backend/server.js:122-144 | the socket is gone; a truthy user leaves the roster, its viewed task's room gets `task:viewer_left`, and everyone gets `users:updated` |
| Presence.RejoinScenario | backend/server.js:68-74 | re-joining on one socket keeps one entry, the latest |
| Presence.FalsyJoinScenario | backend/server.js:124-128 | a join with id 0 leaves a roster entry after disconnect |
| Presence.ViewerLeavesScenario | backend/server.js:130-139 | a viewer disconnecting notifies exactly the other viewer |
| Client.Filter | frontend/js/app.js:455 | `filter` keeps exactly the passing entries and never grows the list |
| Client.FilterAppend | frontend/js/app.js:455 | `filter` keeps the order of the entries it keeps |
| Client.FilterKeepsAll | frontend/js/app.js:455 | a filter every entry passes leaves the list unchanged |
| Client.FindIndex | frontend/js/app.js:444 | `findIndex` is -1 exactly when nothing is found, else the first found position |
| Client.Replaced | frontend/js/app.js:444-451 | the first found entry is replaced, the length never changes, and without a match nothing changes |
| Client.TaskManager.constructor | frontend/js/app.js:3-12 | empty cache, roster and user |
| Client.TaskManager.HandleTaskCreated | frontend/js/app.js:435-437 | the task is prepended, all earlier entries follow in order |
| Client.TaskManager.HandleTaskUpdated | frontend/js/app.js:444-451 | the first entry with a strictly equal id is replaced |
| Client.TaskManager.HandleTaskDeleted | frontend/js/app.js:455 | exactly the entries whose id is not strictly equal remain, in order |
| Client.TaskManager.HandleTaskAssigned | frontend/js/app.js:462-472 | the entry for `taskId` is replaced; the notification is for the signed-in assignee, or the handler throws without a user |
| Client.TaskManager.HandleTaskStatusChanged | frontend/js/app.js:476-484 | the entry for `taskId` is replaced |
| Client.TaskManager.HandleTaskUpdateAdded | frontend/js/app.js:487-491 | the entry for `taskId` is replaced |
| Client.TaskManager.HandleUsersUpdated | frontend/js/app.js:502-505 | the roster is the one the server sent |
| Client.TaskManager.Receive | frontend/js/app.js:47-74 | every task broadcast goes to its handler |
| Client.StrictDeleteIgnoresPathId | frontend/js/app.js:455 | with numeric cached ids, a delete for a path text removes nothing |
| Client.LooseDeleteRemovesPathId | frontend/js/app.js:455 | compared with `==`, it removes exactly the tasks with the id the text denotes |
| Client.StrictLookupIgnoresPathId | frontend/js/app.js:463-465 | with numeric cached ids, an event for a path text replaces nothing |
| Client.LooseLookupFindsPathId | frontend/js/app.js:463-465 | compared with `==`, it replaces the first task with the id the text denotes |
| Client.DeletedTaskLingers | frontend/js/app.js:455 | task 5 survives `task:deleted` with id "5" and is dropped when compared loosely |
| Client.ReconciledKeepsLength | frontend/js/app.js:444-491 | update, assign, status and progress events never change the list's length |
| Client.ApplyCurrentFilters | frontend/js/app.js:826-837 | a task is shown exactly when it matches every non-empty filter, the assignee compared with `==` |
| Client.ClearedFiltersShowAll | frontend/js/app.js:843-848 | with the filters cleared, the whole list is shown in order |
| Client.AssigneeFilterIsLoose | frontend/js/app.js:834 | choosing an assignee shows exactly the tasks assigned to that number, though `===` would fail |
| Client.MyTasks | frontend/js/app.js:351-354 | exactly the tasks whose assignee is strictly the user's id |
| Client.MyTasksEditable | frontend/js/app.js:747-751 | every task in "my tasks" may be edited |
| Client.CanEditMeaning | frontend/js/app.js:747-751 | an admin may edit any task, anyone else exactly those they created or are assigned |
| Client.CreatorCanEdit | frontend/js/app.js:747-751 | the creator of a stored task may edit it |
| Client.LoginRequest | frontend/js/app.js:183-188 | no request exactly for an all-white-space name; otherwise the trimmed name |
| Client.CreateTaskRequest | frontend/js/app.js:562-573 | no request exactly for an all-white-space title; the body has the trimmed title and null for empty assignee and date |
| Client.AddUpdateRequest | frontend/js/app.js:714-722 | no request exactly for an empty trimmed comment with progress reading as 0 |
| Client.CreateUserRequest | frontend/js/app.js:983-989 | no request exactly for an empty role or an all-white-space name |

## Left out

- The SQL text, the driver, `PRAGMA`/`ALTER TABLE` execution and the indexes: tables are maps with id counters, and the schema rules are stated as functions.
- `CURRENT_TIMESTAMP`: time is a `now` parameter supplied by the caller, and ties in `ORDER BY` are left unspecified.
- Database I/O failures: only the lookups whose failure the routes report in their own terms (`requireAdmin`, login, `getCurrentUser`, logout) take a `lookupFails`/`destroyFails` parameter. The 500 answers of the list and statistics routes are not modelled.
- The `user_id` and `assigned_to`/`created_by` foreign keys are not enforced; the source never enables enforcement.
- Express routing, the session store, cookies, CORS and static serving: a session is a record of three optional fields.
- Socket.io transport: emissions are recorded as a log of (room, recipients, event). The socket's own-id room, `notification:read`, signals and shutdown timers are not modelled.
- Presence.Server.Connect: socket ids are assumed fresh, as Socket.io issues them.
- Presence: `userData` that is `null` or lacks fields is not modelled; the user data is a record of three values.
- The browser DOM: templates, escaping, toasts, modals, `fetch`, dates, the stub editors, and `handleTaskViewerJoined`/`Left` (which only touch the DOM). So is how `currentUser` is filled from the login and status responses.
- The client's numeric `progress` field, which the server ignores (it reads only `progress_state`).
- Booleans, fractional numbers and objects as request values.
- ToNumber: reads only an optionally signed run of decimal digits, with white space around it. `Number` also accepts a decimal point, an exponent, `Infinity` and `0x`/`0o`/`0b` literals; the model gives NaN for those texts, because a decimal or non-integer value has no counterpart among the modelled values.
- LooseEq: compares a number with a text through `ToNumber`, so texts such as `"5.0"`, `"1e3"` or `"0x10"` are not `==` to 5, 1000 or 16 in the model, as they are in JavaScript.
- IntegerAffinity: converts only the integer literals `IntegerLiteral` accepts. SQLite also turns a text with surrounding white space, a decimal point or an exponent (`'5.0'`, `'5e0'`) into a number (REAL, or INTEGER when exact), and the model keeps such texts as text. `due_date` is declared DATE, whose NUMERIC affinity acts like INTEGER affinity on the modelled values.
- KeyMatchesText: a text parameter finds key k exactly when it is an integer literal of k; SQLite also matches `'5.0'`, `'5e0'` and `' 5'` with key 5, which the model does not, for the reason given under IntegerAffinity.
- ParseInt: integers are unbounded here as in the rest of the model, which does not capture JavaScript's 2^53 limit of exact integers, SQLite's 64-bit INTEGER range, or the rounding `parseInt` and `Number` apply to longer digit strings.
- Delete (`Tasks.Delete`): removes the task's updates with it (the schema's `ON DELETE CASCADE`) although the connection as written leaves them behind with foreign keys off. The model uses the intended behaviour; `Schema.WithoutCascadeLeavesOrphans` shows the discrepancy and `Schema.OrphansUnseen` proves that no result, task, user or task history differs.
- DeleteEffect (`Tasks.DeleteEffect`): states that a deleted task's updates are gone, which holds for the cascading delete the model uses and not for the connection as written; see the line for Delete.
- DeleteTask (`Tasks.DeleteTask`): applies `Delete`, so the same remark applies.
- DeleteRoute (`TaskApi.DeleteRoute`): answers from `Tasks.Delete`; its status codes, body and event are the same with or without the cascade, by `Schema.OrphansUnseen`.
- Branches that cannot be reached, such as the task missing right after a successful progress update, are proved dead rather than modelled.

## Findings

| source | as written | input that shows it | evidently intended | confidence | as-written member | corrected member |
|---|---|---|---|---|---|---|
| backend/models/database.js:65 | `ON DELETE CASCADE` on `updates.task_id`, but foreign keys are never switched on, so deleting a task leaves its updates behind | a task 1 with one update; `DELETE FROM tasks WHERE id = 1` | the task's updates are deleted with it | not executed; depends on the driver keeping SQLite's default of foreign keys off | Schema.WithoutCascadeLeavesOrphans | Schema.DeleteTaskKeeps |
| frontend/js/app.js:455 | `t.id !== data.id`, where `data.id` is the path text the server sends and `t.id` a number | a cached task with id 5; `task:deleted` with `{ id: "5" }` | the deleted task leaves the cache | not executed | Client.StrictDeleteIgnoresPathId | Client.LooseDeleteRemovesPathId |
| frontend/js/app.js:463 | `t.id === data.taskId`, where `taskId` is the path text (also lines 477 and 488) | a cached task with id 5; `task:assigned` with `taskId: "5"` | the assigned, re-stated or updated task is refreshed in the cache | not executed | Client.StrictLookupIgnoresPathId | Client.LooseLookupFindsPathId |
