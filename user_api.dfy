/**
 * The user routes of backend/api/users.js: listing is for admins, listing by role and
 * `/me` for any signed-in user, and the writes for admins; a thrown error becomes 404,
 * 409 or 400 by the words its message contains, and 500 otherwise.
 */
module UserApi {
  import opened Js
  import opened Wrappers
  import opened Sqlite
  import opened Text
  import opened Schema
  import opened Users
  import opened Middleware
  import opened Http
  import opened Messages
  import opened Ordering

  /** The bodies of successful answers. */
  datatype UsersJson =
    | Many(users: seq<UserView>)
    | One(user: Option<UserView>)        // `res.json(user)`; None: `res.json(undefined)`, a 200 with an empty body
    | Removed                            // { message: 'User deleted successfully' }

  // ---------------------------------------------------------------------------
  // Error classification

  const UserColumns: set<ColumnName> := {ColumnName("users.", "name"), ColumnName("users.", "role")}

  /** The messages the SQLite driver gives for the constraints of the users table. */
  predicate UserConstraintError(m: string) {
    (exists c :: c in UserColumns && (m == NotNullFailed(c) || m == UniqueFailed(c))) || m == CheckFailed(RoleCheck)
  }

  predicate ConstraintKind(kind: string) {
    kind == "NOT NULL " || kind == "UNIQUE "
  }

  lemma UserPiecesAvoidNotFound(c: ColumnName, kind: string)
    requires c in UserColumns && ConstraintKind(kind)
    ensures Clean(ConstraintPieces + [kind, "constraint ", "failed: ", c.table, c.column], "not found")
  {
    DriverAvoidsNotFound();
  }

  lemma UserPiecesAvoidAlreadyExists(c: ColumnName, kind: string)
    requires c in UserColumns && ConstraintKind(kind)
    ensures Clean(ConstraintPieces + [kind, "constraint ", "failed: ", c.table, c.column], "already exists")
  {
    DriverAvoidsAlreadyExists();
  }

  /** The role CHECK's message is assembled from pieces that mention neither phrase. */
  lemma RoleCheckPieces()
    ensures Clean(ConstraintPieces + ["CHECK ", "constraint ", "failed: "] + CheckExpression(RoleCheck), "not found")
    ensures Clean(ConstraintPieces + ["CHECK ", "constraint ", "failed: "] + CheckExpression(RoleCheck), "already exists")
  {
    CheckPieces(RoleCheck);
    RoleCheckAvoidsAlreadyExists();
  }

  lemma RoleCheckAvoidsAlreadyExists()
    ensures Clean(ConstraintPieces + ["CHECK ", "constraint ", "failed: "] + CheckExpression(RoleCheck), "already exists")
  {
    SqliteKindsAvoidAlreadyExists();
    ConstraintFailedTasksAvoidAlreadyExists();
    ConstraintCodeAvoidsAlreadyExists();
    RoleCheckHeadAvoidsAlreadyExists();
    RoleCheckTailAvoidsAlreadyExists();
  }

  /** A violation on the users table is assembled from pieces that mention neither phrase. */
  lemma UserDriverPieces(m: string) returns (ps: seq<string>)
    requires UserConstraintError(m)
    ensures m == Concat(ps) && Clean(ps, "not found") && Clean(ps, "already exists")
  {
    if m == CheckFailed(RoleCheck) {
      ps := ConstraintPieces + ["CHECK ", "constraint ", "failed: "] + CheckExpression(RoleCheck);
      RoleCheckPieces();
    } else {
      var c :| c in UserColumns && (m == NotNullFailed(c) || m == UniqueFailed(c));
      var kind := if m == NotNullFailed(c) then "NOT NULL " else "UNIQUE ";
      ps := ConstraintPieces + [kind, "constraint ", "failed: ", c.table, c.column];
      UserPiecesAvoidNotFound(c, kind);
      UserPiecesAvoidAlreadyExists(c, kind);
    }
  }

  lemma InsertUserError(t: Tables, name: Value, role: Value, now: nat)
    requires InsertUserRow(t, name, role, now).result.Err?
    ensures UserConstraintError(InsertUserRow(t, name, role, now).result.message)
  {
    assert ColumnName("users.", "name") in UserColumns && ColumnName("users.", "role") in UserColumns;
  }

  lemma UpdateUserError(t: Tables, id: Value, name: Value, role: Value)
    requires UpdateUserRow(t, id, name, role).result.Err?
    ensures UserConstraintError(UpdateUserRow(t, id, name, role).result.message)
  {
    assert ColumnName("users.", "name") in UserColumns && ColumnName("users.", "role") in UserColumns;
  }

  /** The user model's messages that do not say "already exists". */
  lemma RefusalsAvoidAlreadyExists()
    ensures Clean(CreatePrefix, "already exists") && Clean(UpdatePrefix, "already exists")
    ensures Clean(NameRoleRequired, "already exists") && Clean(RoleInvalid, "already exists")
  {
    CreatePrefixClean();
    UpdatePrefixClean();
    NameRoleRequiredClean();
    RoleInvalidClean();
  }

  lemma CreatePrefixClean()
    ensures Clean(CreatePrefix, "already exists")
  {
    PrefixAvoidsAlreadyExists();
  }

  lemma UpdatePrefixClean()
    ensures Clean(UpdatePrefix, "already exists")
  {
    PrefixAvoidsAlreadyExists();
  }

  lemma NameRoleRequiredClean()
    ensures Clean(NameRoleRequired, "already exists")
  {
    NameRoleRequiredAvoidAlreadyExists();
  }

  lemma RoleInvalidClean()
    ensures Clean(RoleInvalid, "already exists")
  {
    NameRoleRequiredAvoidAlreadyExists();
    RoleInvalidWordsAvoidAlreadyExists();
  }

  /** The user model's messages that do not say "not found". */
  lemma RefusalsAvoidNotFound()
    ensures Clean(UpdatePrefix, "not found") && Clean(DeletePrefix, "not found")
    ensures Clean(NameRoleRequired, "not found") && Clean(RoleInvalid, "not found")
    ensures Clean(NameInUse, "not found") && Clean(HasAssignedTasks, "not found")
  {
    PrefixAvoidsNotFound();
    InputRefusalsAvoidNotFound();
    ConflictsAvoidNotFound();
  }

  lemma InputRefusalsAvoidNotFound()
    ensures Clean(NameRoleRequired, "not found") && Clean(RoleInvalid, "not found")
  {
    NameRoleRequiredAvoidNotFound();
    RoleInvalidAvoidsNotFound();
  }

  lemma RoleInvalidAvoidsNotFound()
    ensures Clean(RoleInvalid, "not found")
  {
    NameRoleRequiredAvoidNotFound();
    RoleInvalidWordsAvoidNotFound();
  }

  lemma ConflictsAvoidNotFound()
    ensures Clean(NameInUse, "not found") && Clean(HasAssignedTasks, "not found")
  {
    NameInUseClean();
    HasAssignedTasksClean();
  }

  lemma NameInUseClean()
    ensures Clean(NameInUse, "not found")
  {
    RoleInvalidWordsAvoidNotFound();
    NameTakenReassignAvoidNotFound();
    AlreadyExistsAvoidsNotFound();
  }

  lemma HasAssignedTasksClean()
    ensures Clean(HasAssignedTasks, "not found")
  {
    RoleInvalidWordsAvoidNotFound();
    NameTakenReassignAvoidNotFound();
    CannotDeleteAvoidsNotFound();
    AssignedTasksAvoidsNotFound();
  }

  /** The user model's messages that do not say "assigned tasks". */
  lemma RefusalsAvoidAssignedTasks()
    ensures Clean(DeletePrefix, "assigned tasks") && Clean(UserNotFound, "assigned tasks")
  {
    PrefixAvoidsAssignedTasks();
    UserAvoidsAssignedTasks();
  }

  /**
   * `POST /`: a failed create is a 409 exactly when the name is taken (and the name
   * and role passed the earlier checks); anything else, an invalid role included, is a 500.
   */
  lemma CreateErrorStatus(t: Tables, name: Value, role: Value, now: nat)
    requires Wellformed(t) && Create(t, name, role, now).result.Err?
    ensures Includes(Create(t, name, role, now).result.message, "already exists") <==>
      Truthy(name) && Truthy(role) && ParseRole(role).Some? && GetByName(t, name).Some?
  {
    RefusalsAvoidAlreadyExists();
    if !Truthy(name) || !Truthy(role) {
      WrapExcludes(CreatePrefix, NameRoleRequired, "already exists");
    } else if ParseRole(role).None? {
      WrapExcludes(CreatePrefix, RoleInvalid, "already exists");
    } else if GetByName(t, name).Some? {
      WrapIncludes(CreatePrefix, NameInUse, 4, "already exists");
    } else {
      InsertUserError(t, name, role, now);
      var ps := UserDriverPieces(InsertUserRow(t, name, role, now).result.message);
      WrapExcludes(CreatePrefix, ps, "already exists");
    }
  }

  /**
   * `PUT /:id`: no failed update is a 404, because the model never reports a missing
   * user; a failure is a 409 exactly when another user holds the name.
   */
  lemma UpdateErrorStatus(t: Tables, id: Value, name: Value, role: Value)
    requires Update(t, id, name, role).result.Err?
    ensures !Includes(Update(t, id, name, role).result.message, "not found")
    ensures Includes(Update(t, id, name, role).result.message, "already exists") <==>
      Truthy(name) && Truthy(role) && ParseRole(role).Some? && NameHeldByOther(t, name, id)
  {
    RefusalsAvoidAlreadyExists();
    RefusalsAvoidNotFound();
    if !Truthy(name) || !Truthy(role) {
      WrapExcludes(UpdatePrefix, NameRoleRequired, "already exists");
      WrapExcludes(UpdatePrefix, NameRoleRequired, "not found");
    } else if ParseRole(role).None? {
      WrapExcludes(UpdatePrefix, RoleInvalid, "already exists");
      WrapExcludes(UpdatePrefix, RoleInvalid, "not found");
    } else if NameHeldByOther(t, name, id) {
      WrapIncludes(UpdatePrefix, NameInUse, 4, "already exists");
      WrapExcludes(UpdatePrefix, NameInUse, "not found");
    } else {
      UpdateUserError(t, id, name, role);
      var ps := UserDriverPieces(UpdateUserRow(t, id, name, role).result.message);
      WrapExcludes(UpdatePrefix, ps, "already exists");
      WrapExcludes(UpdatePrefix, ps, "not found");
    }
  }

  /**
   * `DELETE /:id`: the delete fails exactly when tasks are assigned to the user (400,
   * "assigned tasks") or no user has the id (404, "not found").
   */
  lemma DeleteErrorStatus(t: Tables, id: Value)
    ensures Delete(t, id).result.Err? <==> AssignedCount(t, id) > 0 || Selected(t.users, id).None?
    ensures Delete(t, id).result.Err? ==>
      (Includes(Delete(t, id).result.message, "not found") <==> AssignedCount(t, id) == 0) &&
      (Includes(Delete(t, id).result.message, "assigned tasks") <==> AssignedCount(t, id) > 0)
  {
    RefusalsAvoidNotFound();
    RefusalsAvoidAssignedTasks();
    if AssignedCount(t, id) > 0 {
      WrapExcludes(DeletePrefix, HasAssignedTasks, "not found");
      WrapIncludes(DeletePrefix, HasAssignedTasks, 4, "assigned tasks");
    } else if Selected(t.users, id).None? {
      WrapIncludes(DeletePrefix, UserNotFound, 1, "not found");
      WrapExcludes(DeletePrefix, UserNotFound, "assigned tasks");
    }
  }

  /** The self-deletion guard recognises the decimal text of the session's user id. */
  lemma OwnIdRecognised(k: int)
    ensures StrictEq(ParseInt(ToText(Str(DecimalString(k)))), Num(k))
  {
    ParseIntDecimal(k);
  }

  /**
   * It also recognises a `0x` text: `parseInt` reads it in base 16, so an admin with id 5
   * cannot delete `/0x5` either.
   */
  lemma OwnHexIdRecognised(h: string)
    requires h != [] && AllHexDigits(h)
    ensures StrictEq(ParseInt(ToText(Str("0x" + h))), Num(HexValue(h)))
  {
    var s := "0x" + h;
    assert s == ['0', 'x'] + h;
    ParseIntHex(h, 'x');
    assert ParseInt(s) == Num(HexValue(h));
  }

  // ---------------------------------------------------------------------------
  // The routes

  /** The reply of a gate that turned the request away. */
  function Refused(g: Gate): Reply<UsersJson>
    requires g.Deny?
  {
    Fail(g.status, g.error)
  }

  /** `GET /`, for admins (`lookupFails` is a failed role lookup): every user, newest first. */
  method ListRoute(db: Store, session: SessionData, lookupFails: bool) returns (r: Reply<UsersJson>)
    ensures RequireAdmin(Some(session), db.State(), lookupFails).Deny? ==>
      r == Refused(RequireAdmin(Some(session), db.State(), lookupFails))
    ensures RequireAdmin(Some(session), db.State(), lookupFails).Proceed? ==>
      r.status == 200 && r.payload.Json? && r.payload.value.Many? &&
      var us := r.payload.value.users;
      |us| == |db.users| &&
      (forall i :: 0 <= i < |us| ==> us[i].id in db.users && us[i] == ViewOf(db.users, us[i].id)) &&
      (forall k :: k in db.users ==> exists i :: 0 <= i < |us| && us[i].id == k) &&
      (forall i, j :: 0 <= i < j < |us| ==> us[i].createdAt >= us[j].createdAt)
  {
    var auth := RequireAuth(Some(session));
    if auth.Deny? {
      return Fail(auth.status, auth.error);
    }
    var admin := RequireAdmin(Some(session), db.State(), lookupFails);
    if admin.Deny? {
      return Fail(admin.status, admin.error);
    }
    var users := GetAll(db);
    r := Send(200, Many(users));
  }

  /** `GET /role/:role`: 400 unless the parameter names a role, otherwise its users by name. */
  method RoleRoute(db: Store, session: SessionData, role: Value) returns (r: Reply<UsersJson>)
    ensures !SignedIn(Some(session)) ==> r == Fail(401, "Authentication required")
    ensures SignedIn(Some(session)) && ParseRole(role).None? ==> r == Fail(400, "Invalid role")
    ensures SignedIn(Some(session)) && ParseRole(role).Some? ==>
      r.status == 200 && r.payload.Json? && r.payload.value.Many? &&
      var us := r.payload.value.users;
      (forall i :: 0 <= i < |us| ==> us[i].id in db.users && us[i] == ViewOf(db.users, us[i].id) &&
                                     us[i].role == ParseRole(role).value) &&
      (forall k :: k in db.users && db.users[k].role == ParseRole(role).value ==>
                     exists i :: 0 <= i < |us| && us[i].id == k) &&
      (forall i, j :: 0 <= i < j < |us| ==> us[i].id != us[j].id && TextLe(us[i].name, us[j].name))
  {
    var auth := RequireAuth(Some(session));
    if auth.Deny? {
      return Fail(auth.status, auth.error);
    }
    if ParseRole(role).None? {
      return Fail(400, "Invalid role");
    }
    var users := GetByRole(db, role);
    RoleSelection(role);
    r := Send(200, Many(users));
  }

  /** For a role name, the stored role matches the parameter exactly when it is that role. */
  lemma RoleSelection(role: Value)
    requires ParseRole(role).Some?
    ensures forall q: Role :: TextAffinity(role) == SText(RoleName(q)) <==> q == ParseRole(role).value
  {
    forall q: Role ensures TextAffinity(role) == SText(RoleName(q)) <==> q == ParseRole(role).value {
      NamesParse(q, Activo, Baja, Inicializado);
    }
  }

  /** `GET /me`: the signed-in user as stored, or 404 when it no longer exists. */
  method MeRoute(db: Store, session: SessionData) returns (r: Reply<UsersJson>)
    ensures !SignedIn(Some(session)) ==> r == Fail(401, "Authentication required")
    ensures SignedIn(Some(session)) && GetById(db.State(), session.userId).None? ==> r == Fail(404, "User not found")
    ensures SignedIn(Some(session)) && GetById(db.State(), session.userId).Some? ==>
      r == Send(200, One(GetById(db.State(), session.userId)))
  {
    var auth := RequireAuth(Some(session));
    if auth.Deny? {
      return Fail(auth.status, auth.error);
    }
    var user := GetById(db.State(), session.userId);
    if user.None? {
      return Fail(404, "User not found");
    }
    r := Send(200, One(user));
  }

  /** `POST /`, for admins: 400 without a name or role, 409 for a taken name, 500 otherwise. */
  method CreateRoute(db: Store, session: SessionData, name: Value, role: Value, now: nat, lookupFails: bool)
    returns (r: Reply<UsersJson>)
    requires db.Valid()
    modifies db
    ensures db.Valid()
    ensures RequireAdmin(Some(session), old(db.State()), lookupFails).Deny? ==>
      r == Refused(RequireAdmin(Some(session), old(db.State()), lookupFails)) && db.State() == old(db.State())
    ensures RequireAdmin(Some(session), old(db.State()), lookupFails).Proceed? && (!Truthy(name) || !Truthy(role)) ==>
      r == Fail(400, "Name and role are required") && db.State() == old(db.State())
    ensures RequireAdmin(Some(session), old(db.State()), lookupFails).Proceed? && Truthy(name) && Truthy(role) ==>
      var s := Create(old(db.State()), name, role, now);
      db.State() == s.after &&
      (s.result.Err? && GetByName(old(db.State()), name).Some? && ParseRole(role).Some? ==>
         r == Fail(409, s.result.message)) &&
      (s.result.Err? && !(GetByName(old(db.State()), name).Some? && ParseRole(role).Some?) ==>
         r == Fail(500, "Failed to create user")) &&
      (s.result.Ok? ==> r == Send(201, One(s.result.value)))
  {
    var auth := RequireAuth(Some(session));
    if auth.Deny? {
      return Fail(auth.status, auth.error);
    }
    var admin := RequireAdmin(Some(session), db.State(), lookupFails);
    if admin.Deny? {
      return Fail(admin.status, admin.error);
    }
    if !Truthy(name) || !Truthy(role) {
      return Fail(400, "Name and role are required");
    }
    ghost var before := db.State();
    var c := CreateUser(db, name, role, now);
    match c {
      case Err(m) =>
        r := if Includes(m, "already exists") then Fail(409, m) else Fail(500, "Failed to create user");
        CreateErrorStatus(before, name, role, now);
      case Ok(u) =>
        r := Send(201, One(u));
    }
  }

  /**
   * `PUT /:id`, for admins: 409 when another user holds the name; an id no user has is
   * answered 200 with an empty body, since the model reports no missing user.
   */
  method UpdateRoute(db: Store, session: SessionData, id: Value, name: Value, role: Value, lookupFails: bool)
    returns (r: Reply<UsersJson>)
    requires db.Valid()
    modifies db
    ensures db.Valid()
    ensures RequireAdmin(Some(session), old(db.State()), lookupFails).Deny? ==>
      r == Refused(RequireAdmin(Some(session), old(db.State()), lookupFails)) && db.State() == old(db.State())
    ensures RequireAdmin(Some(session), old(db.State()), lookupFails).Proceed? && (!Truthy(name) || !Truthy(role)) ==>
      r == Fail(400, "Name and role are required") && db.State() == old(db.State())
    ensures RequireAdmin(Some(session), old(db.State()), lookupFails).Proceed? && Truthy(name) && Truthy(role) ==>
      var s := Users.Update(old(db.State()), id, name, role);
      db.State() == s.after &&
      (s.result.Err? && ParseRole(role).Some? && NameHeldByOther(old(db.State()), name, id) ==>
         r == Fail(409, s.result.message)) &&
      (s.result.Err? && !(ParseRole(role).Some? && NameHeldByOther(old(db.State()), name, id)) ==>
         r == Fail(500, "Failed to update user")) &&
      (s.result.Ok? ==> r == Send(200, One(s.result.value)))
  {
    var auth := RequireAuth(Some(session));
    if auth.Deny? {
      return Fail(auth.status, auth.error);
    }
    var admin := RequireAdmin(Some(session), db.State(), lookupFails);
    if admin.Deny? {
      return Fail(admin.status, admin.error);
    }
    if !Truthy(name) || !Truthy(role) {
      return Fail(400, "Name and role are required");
    }
    ghost var before := db.State();
    var u := UpdateUser(db, id, name, role);
    match u {
      case Err(m) =>
        r := if Includes(m, "not found") then Fail(404, m)
             else if Includes(m, "already exists") then Fail(409, m)
             else Fail(500, "Failed to update user");
        UpdateErrorStatus(before, id, name, role);
      case Ok(user) =>
        r := Send(200, One(user));
    }
  }

  /**
   * `DELETE /:id`, for admins: an admin cannot delete the account they are signed in
   * with; otherwise 400 while tasks are assigned to the user and 404 when no user has the id.
   */
  method DeleteRoute(db: Store, session: SessionData, id: Value, lookupFails: bool) returns (r: Reply<UsersJson>)
    requires db.Valid()
    modifies db
    ensures db.Valid()
    ensures RequireAdmin(Some(session), old(db.State()), lookupFails).Deny? ==>
      r == Refused(RequireAdmin(Some(session), old(db.State()), lookupFails)) && db.State() == old(db.State())
    ensures RequireAdmin(Some(session), old(db.State()), lookupFails).Proceed? &&
            StrictEq(ParseInt(ToText(id)), session.userId) ==>
      r == Fail(400, "Cannot delete your own account") && db.State() == old(db.State())
    ensures RequireAdmin(Some(session), old(db.State()), lookupFails).Proceed? &&
            !StrictEq(ParseInt(ToText(id)), session.userId) ==>
      var s := Users.Delete(old(db.State()), id);
      db.State() == s.after &&
      (AssignedCount(old(db.State()), id) > 0 ==> r == Fail(400, s.result.message)) &&
      (AssignedCount(old(db.State()), id) == 0 && Selected(old(db.users), id).None? ==> r == Fail(404, s.result.message)) &&
      (AssignedCount(old(db.State()), id) == 0 && Selected(old(db.users), id).Some? ==> r == Send(200, Removed))
  {
    var auth := RequireAuth(Some(session));
    if auth.Deny? {
      return Fail(auth.status, auth.error);
    }
    var admin := RequireAdmin(Some(session), db.State(), lookupFails);
    if admin.Deny? {
      return Fail(admin.status, admin.error);
    }
    if StrictEq(ParseInt(ToText(id)), session.userId) {
      return Fail(400, "Cannot delete your own account");
    }
    ghost var before := db.State();
    var d := DeleteUser(db, id);
    match d {
      case Err(m) =>
        r := if Includes(m, "not found") then Fail(404, m)
             else if Includes(m, "assigned tasks") then Fail(400, m)
             else Fail(500, "Failed to delete user");
        DeleteErrorStatus(before, id);
      case Ok(_) =>
        r := Send(200, Removed);
        DeleteErrorStatus(before, id);
    }
  }
}
