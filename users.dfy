/** The identity directory of backend/models/User.js over the `users` table. */
module Users {
  import opened Js
  import opened Wrappers
  import opened Sqlite
  import opened Text
  import opened Ordering
  import opened Schema

  /** A row as `SELECT id, name, role, created_at FROM users` returns it. */
  datatype UserView = UserView(id: int, name: string, role: Role, createdAt: nat)

  function ViewOf(users: map<int, UserRow>, k: int): (v: UserView)
    requires k in users
    ensures v.id == k
  {
    UserView(k, users[k].name, users[k].role, users[k].createdAt)
  }

  // ---------------------------------------------------------------------------
  // Messages

  const CreatePrefix: seq<string> := ["Error ", "creating ", "user: "]
  const UpdatePrefix: seq<string> := ["Error ", "updating ", "user: "]
  const DeletePrefix: seq<string> := ["Error ", "deleting ", "user: "]
  const NameRoleRequired: seq<string> := ["Name ", "and ", "role ", "are ", "required"]
  const RoleInvalid: seq<string> := ["Role ", "must ", "be ", "either ", "admin ", "or ", "trabajador"]
  const NameInUse: seq<string> := ["User ", "with ", "this ", "name ", "already exists"]
  const UserNotFound: seq<string> := ["User ", "not found"]
  const HasAssignedTasks: seq<string> := ["C", "annot delete ", "user ", "with ", "assigned tasks", ". ", "Reassign ", "tasks ", "first."]

  // ---------------------------------------------------------------------------
  // Queries

  /** `getById`: the user whose id the parameter selects, or `undefined`. */
  function GetById(t: Tables, id: Value): (r: Option<UserView>)
    ensures r.Some? <==> exists k :: k in t.users && KeyMatches(k, id)
    ensures r.Some? ==> r.value.id in t.users && KeyMatches(r.value.id, id) && r.value == ViewOf(t.users, r.value.id)
  {
    match Selected(t.users, id)
    case Some(k) => Some(ViewOf(t.users, k))
    case None => None
  }

  /** `getByName`: the user holding the name, or `undefined`. */
  function GetByName(t: Tables, name: Value): (r: Option<UserView>)
    requires UniqueNames(t.users)
    ensures r.Some? <==> exists k :: k in t.users && TextAffinity(name) == SText(t.users[k].name)
    ensures r.Some? ==> r.value.id in t.users && r.value == ViewOf(t.users, r.value.id) &&
                        TextAffinity(name) == SText(r.value.name)
  {
    match UserNamed(t.users, name)
    case Some(k) => Some(ViewOf(t.users, k))
    case None => None
  }

  /** `isAdmin`: `user && user.role === 'admin'`, where `undefined` reads as false. */
  function IsAdmin(t: Tables, userId: Value): (b: bool)
    ensures b <==> exists k :: k in t.users && KeyMatches(k, userId) && t.users[k].role == Admin
  {
    match GetById(t, userId)
    case Some(u) => u.role == Admin
    case None => false
  }

  /** `getAll`: every user, newest first. */
  method GetAll(db: Store) returns (r: seq<UserView>)
    ensures |r| == |db.users|
    ensures forall i :: 0 <= i < |r| ==> r[i].id in db.users && r[i] == ViewOf(db.users, r[i].id)
    ensures forall k :: k in db.users ==> exists i :: 0 <= i < |r| && r[i].id == k
    ensures forall i, j :: 0 <= i < j < |r| ==> r[i].createdAt >= r[j].createdAt
  {
    var us := db.users;
    var keys := SortDescending(us.Keys, k => if k in us then us[k].createdAt else 0);
    r := seq(|keys|, i requires 0 <= i < |keys| => ViewOf(us, keys[i]));
    forall k | k in us ensures exists i :: 0 <= i < |r| && r[i].id == k {
      var i :| 0 <= i < |keys| && keys[i] == k;
      assert r[i].id == k;
    }
    DistinctCount(keys, us.Keys);
  }

  /** `getByRole`: users whose stored role equals the parameter, by name. */
  method GetByRole(db: Store, role: Value) returns (r: seq<UserView>)
    ensures forall i :: 0 <= i < |r| ==> r[i].id in db.users && r[i] == ViewOf(db.users, r[i].id) &&
                                         TextAffinity(role) == SText(RoleName(r[i].role))
    ensures forall k :: k in db.users && TextAffinity(role) == SText(RoleName(db.users[k].role)) ==>
                          exists i :: 0 <= i < |r| && r[i].id == k
    ensures forall i, j :: 0 <= i < j < |r| ==> r[i].id != r[j].id && TextLe(r[i].name, r[j].name)
  {
    var us := db.users;
    var chosen := set k | k in us && TextAffinity(role) == SText(RoleName(us[k].role));
    var keys := SortAscendingByName(chosen, k => if k in us then us[k].name else "");
    assert forall i :: 0 <= i < |keys| ==> keys[i] in chosen;
    r := seq(|keys|, i requires 0 <= i < |keys| => ViewOf(us, keys[i]));
    forall k | k in us && TextAffinity(role) == SText(RoleName(us[k].role)) ensures exists i :: 0 <= i < |r| && r[i].id == k {
      assert k in chosen;
      var i :| 0 <= i < |keys| && keys[i] == k;
      assert r[i].id == k;
    }
  }

  lemma {:induction false} DistinctCount(s: seq<int>, keys: set<int>)
    requires NoDuplicates(s) && forall k :: k in s <==> k in keys
    ensures |s| == |keys|
    decreases |s|
  {
    if s != [] {
      var x := s[|s| - 1];
      var rest := s[..|s| - 1];
      assert forall k :: k in rest <==> k in keys - {x} by {
        forall k ensures k in rest <==> k in keys - {x} {
          if k in rest {
            var i :| 0 <= i < |rest| && rest[i] == k;
            assert s[i] == k && i < |s| - 1;
          }
        }
      }
      DistinctCount(rest, keys - {x});
    } else {
      assert forall k :: k !in keys;
      assert keys == {};
    }
  }

  // ---------------------------------------------------------------------------
  // Writes, as functions of the database

  /** `SELECT id FROM users WHERE name = ? AND id != ?` finds a row. */
  predicate NameHeldByOther(t: Tables, name: Value, id: Value) {
    exists k :: k in t.users && TextAffinity(name) == SText(t.users[k].name) && KeyDiffers(k, id)
  }

  /** `create`: checks, then the INSERT, then the new user read back by id. */
  function Create(t: Tables, name: Value, role: Value, now: nat): (s: Step<Option<UserView>>)
    requires Wellformed(t)
    ensures s.after.tasks == t.tasks && s.after.updates == t.updates
    ensures s.result.Err? ==> s.after == t
    ensures s.result.Ok? ==> s.after.users.Keys == t.users.Keys + {t.userSeq + 1}
  {
    if !Truthy(name) || !Truthy(role) then Step(t, Err(Wrap(CreatePrefix, Concat(NameRoleRequired))))
    else if ParseRole(role).None? then Step(t, Err(Wrap(CreatePrefix, Concat(RoleInvalid))))
    else if GetByName(t, name).Some? then Step(t, Err(Wrap(CreatePrefix, Concat(NameInUse))))
    else
      var e := InsertUserRow(t, name, role, now);
      match e.result
      case Err(m) => Step(e.after, Err(Wrap(CreatePrefix, m)))
      case Ok(run) => Step(e.after, Ok(GetById(e.after, Num(run.id))))
  }

  /** `update`: checks, then the UPDATE, then whatever `getById` finds (possibly nothing). */
  function Update(t: Tables, id: Value, name: Value, role: Value): (s: Step<Option<UserView>>)
    ensures s.after.tasks == t.tasks && s.after.updates == t.updates && s.after.users.Keys == t.users.Keys
    ensures s.result.Err? ==> s.after == t
  {
    if !Truthy(name) || !Truthy(role) then Step(t, Err(Wrap(UpdatePrefix, Concat(NameRoleRequired))))
    else if ParseRole(role).None? then Step(t, Err(Wrap(UpdatePrefix, Concat(RoleInvalid))))
    else if NameHeldByOther(t, name, id) then Step(t, Err(Wrap(UpdatePrefix, Concat(NameInUse))))
    else
      var e := UpdateUserRow(t, id, name, role);
      match e.result
      case Err(m) => Step(e.after, Err(Wrap(UpdatePrefix, m)))
      case Ok(_) => Step(e.after, Ok(GetById(e.after, id)))
  }

  /** `SELECT COUNT(*) FROM tasks WHERE assigned_to = ?`: zero exactly when no task is assigned to `id`. */
  function AssignedCount(t: Tables, id: Value): (n: nat)
    ensures n <= |t.tasks|
    ensures n == 0 <==> forall k :: k in t.tasks ==> !ColumnEq(t.tasks[k].assignedTo, IntegerAffinity(id))
  {
    var matching := set k | k in t.tasks && ColumnEq(t.tasks[k].assignedTo, IntegerAffinity(id));
    SubsetCard(matching, t.tasks.Keys);
    assert (exists k :: k in t.tasks && ColumnEq(t.tasks[k].assignedTo, IntegerAffinity(id))) ==> |matching| > 0 by {
      if exists k :: k in t.tasks && ColumnEq(t.tasks[k].assignedTo, IntegerAffinity(id)) {
        var k :| k in t.tasks && ColumnEq(t.tasks[k].assignedTo, IntegerAffinity(id));
        assert k in matching;
      }
    }
    |matching|
  }

  /** `delete`: refuses while tasks are assigned to the user, then deletes and checks `changes`. */
  function Delete(t: Tables, id: Value): (s: Step<bool>)
    ensures s.after.tasks == t.tasks && s.after.updates == t.updates && s.after.users.Keys <= t.users.Keys
    ensures s.result.Err? ==> s.after == t
  {
    if AssignedCount(t, id) > 0 then Step(t, Err(Wrap(DeletePrefix, Concat(HasAssignedTasks))))
    else
      var e := DeleteUserRow(t, id);
      match e.result
      case Err(m) => Step(e.after, Err(Wrap(DeletePrefix, m)))
      case Ok(run) =>
        if run.changes == 0 then Step(e.after, Err(Wrap(DeletePrefix, Concat(UserNotFound))))
        else Step(e.after, Ok(true))
  }

  // ---------------------------------------------------------------------------
  // The same operations on the shared connection

  method CreateUser(db: Store, name: Value, role: Value, now: nat) returns (r: Result<Option<UserView>>)
    requires db.Valid()
    modifies db
    ensures db.Valid()
    ensures db.State() == Create(old(db.State()), name, role, now).after
    ensures r == Create(old(db.State()), name, role, now).result
  {
    if !Truthy(name) || !Truthy(role) {
      return Err(Wrap(CreatePrefix, Concat(NameRoleRequired)));
    }
    if ParseRole(role).None? {
      return Err(Wrap(CreatePrefix, Concat(RoleInvalid)));
    }
    var existing := GetByName(db.State(), name);
    if existing.Some? {
      return Err(Wrap(CreatePrefix, Concat(NameInUse)));
    }
    InsertUserKeeps(db.State(), name, role, now);
    var run := db.Run(InsertUserRow(db.State(), name, role, now));
    match run {
      case Err(m) =>
        r := Err(Wrap(CreatePrefix, m));
      case Ok(res) => r := Ok(GetById(db.State(), Num(res.id)));
    }
  }

  method UpdateUser(db: Store, id: Value, name: Value, role: Value) returns (r: Result<Option<UserView>>)
    requires db.Valid()
    modifies db
    ensures db.Valid()
    ensures db.State() == Update(old(db.State()), id, name, role).after
    ensures r == Update(old(db.State()), id, name, role).result
  {
    if !Truthy(name) || !Truthy(role) {
      return Err(Wrap(UpdatePrefix, Concat(NameRoleRequired)));
    }
    if ParseRole(role).None? {
      return Err(Wrap(UpdatePrefix, Concat(RoleInvalid)));
    }
    if NameHeldByOther(db.State(), name, id) {
      return Err(Wrap(UpdatePrefix, Concat(NameInUse)));
    }
    UpdateUserKeeps(db.State(), id, name, role);
    var run := db.Run(UpdateUserRow(db.State(), id, name, role));
    match run {
      case Err(m) => r := Err(Wrap(UpdatePrefix, m));
      case Ok(_) => r := Ok(GetById(db.State(), id));
    }
  }

  method DeleteUser(db: Store, id: Value) returns (r: Result<bool>)
    requires db.Valid()
    modifies db
    ensures db.Valid()
    ensures db.State() == Delete(old(db.State()), id).after
    ensures r == Delete(old(db.State()), id).result
  {
    var count := AssignedCount(db.State(), id);
    if count > 0 {
      return Err(Wrap(DeletePrefix, Concat(HasAssignedTasks)));
    }
    DeleteUserKeeps(db.State(), id);
    var run := db.Run(DeleteUserRow(db.State(), id));
    match run {
      case Err(m) => r := Err(Wrap(DeletePrefix, m));
      case Ok(res) =>
        if res.changes == 0 {
          r := Err(Wrap(DeletePrefix, Concat(UserNotFound)));
        } else {
          r := Ok(true);
        }
    }
  }

  // ---------------------------------------------------------------------------
  // Properties

  /** `create` rejects, in this order, a missing name or role, a role outside the enumeration, and a name in use; the table is left as it was. */
  lemma CreateRejects(t: Tables, name: Value, role: Value, now: nat)
    requires Wellformed(t)
    ensures var s := Create(t, name, role, now);
      (!Truthy(name) || !Truthy(role) ==> s == Step(t, Err(Wrap(CreatePrefix, Concat(NameRoleRequired))))) &&
      (Truthy(name) && Truthy(role) && ParseRole(role).None? ==> s == Step(t, Err(Wrap(CreatePrefix, Concat(RoleInvalid))))) &&
      (Truthy(name) && ParseRole(role).Some? && (exists k :: k in t.users && TextAffinity(name) == SText(t.users[k].name)) ==>
         s == Step(t, Err(Wrap(CreatePrefix, Concat(NameInUse)))))
  {
  }

  /**
   * A `create` that passes the checks adds exactly one user, under a fresh id, with the
   * given name and role; `getById` and `getByName` then both return it.
   */
  lemma CreateSucceeds(t: Tables, name: Value, role: Value, now: nat)
    requires Wellformed(t) && Truthy(name) && ParseRole(role).Some?
    requires forall k :: k in t.users ==> TextAffinity(name) != SText(t.users[k].name)
    ensures var s := Create(t, name, role, now);
      s.result.Ok? && s.result.value.Some? &&
      var u := s.result.value.value;
      u.id !in t.users && TextAffinity(name) == SText(u.name) && u.role == ParseRole(role).value &&
      Wellformed(s.after) && s.after.users == t.users[u.id := UserRow(u.name, u.role, now)] &&
      s.after.tasks == t.tasks && s.after.updates == t.updates &&
      GetById(s.after, Num(u.id)) == Some(u) && GetByName(s.after, name) == Some(u)
  {
    InsertUserFresh(t, name, role, now);
    var e := InsertUserRow(t, name, role, now);
    var id := t.userSeq + 1;
    KeyMatchesDecimal(id);
    var u := ViewOf(e.after.users, id);
    assert GetById(e.after, Num(id)) == Some(u);
    var found := GetByName(e.after, name);
    assert found.Some? by {
      assert e.after.users[id].name == TextAffinity(name).t;
    }
    assert found.value.id == id by {
      assert UniqueNames(e.after.users);
    }
  }

  /** The INSERT of a fresh, valid name stores one row under the next id. */
  lemma InsertUserFresh(t: Tables, name: Value, role: Value, now: nat)
    requires Wellformed(t) && Truthy(name) && ParseRole(role).Some?
    requires forall k :: k in t.users ==> TextAffinity(name) != SText(t.users[k].name)
    ensures var e := InsertUserRow(t, name, role, now);
      var id := t.userSeq + 1;
      TextAffinity(name).SText? && e.result == Ok(RunResult(id, 1)) && id !in t.users && Wellformed(e.after) &&
      e.after.users == t.users[id := UserRow(TextAffinity(name).t, ParseRole(role).value, now)] &&
      e.after.tasks == t.tasks && e.after.updates == t.updates
  {
    InsertUserKeeps(t, name, role, now);
    CheckAgreesWithIncludes(role);
    assert !NameTaken(t.users, TextAffinity(name).t);
  }

  /** `update` may keep the user's own name: a name held by no other row is accepted. */
  lemma UpdateKeepsOwnName(t: Tables, id: Value, name: Value, role: Value)
    requires Wellformed(t) && Truthy(name) && ParseRole(role).Some?
    requires Selected(t.users, id).Some? && TextAffinity(name) == SText(t.users[Selected(t.users, id).value].name)
    ensures var s := Update(t, id, name, role);
      var k := Selected(t.users, id).value;
      s.result == Ok(Some(ViewOf(s.after.users, k))) &&
      s.after.users == t.users[k := t.users[k].(role := ParseRole(role).value)] &&
      Wellformed(s.after)
  {
    var k := Selected(t.users, id).value;
    assert !NameHeldByOther(t, name, id) by {
      forall j | j in t.users && TextAffinity(name) == SText(t.users[j].name) ensures !KeyDiffers(j, id) {
        assert j == k;
      }
    }
    CheckAgreesWithIncludes(role);
    UpdateUserKeeps(t, id, name, role);
    assert !NameTaken(t.users - {k}, TextAffinity(name).t);
  }

  /** `update` rejects a name that a different row holds, and changes nothing. */
  lemma UpdateRejectsTakenName(t: Tables, id: Value, name: Value, role: Value, other: int)
    requires Truthy(name) && ParseRole(role).Some?
    requires other in t.users && TextAffinity(name) == SText(t.users[other].name) && KeyDiffers(other, id)
    ensures Update(t, id, name, role) == Step(t, Err(Wrap(UpdatePrefix, Concat(NameInUse))))
  {
  }

  /** `update` of an id that selects no row raises no error, returns no user and changes nothing. */
  lemma UpdateMissingUser(t: Tables, id: Value, name: Value, role: Value)
    requires Wellformed(t) && Truthy(name) && ParseRole(role).Some?
    requires Selected(t.users, id).None? && !NameHeldByOther(t, name, id)
    ensures Update(t, id, name, role) == Step(t, Ok(None))
  {
  }

  /** `delete` refuses while some task is assigned to the user, before removing anything. */
  lemma DeleteBlockedByAssignment(t: Tables, id: Value, task: int)
    requires task in t.tasks && ColumnEq(t.tasks[task].assignedTo, IntegerAffinity(id))
    ensures Delete(t, id) == Step(t, Err(Wrap(DeletePrefix, Concat(HasAssignedTasks))))
  {
    var holders := set k | k in t.tasks && ColumnEq(t.tasks[k].assignedTo, IntegerAffinity(id));
    assert task in holders;
  }

  /**
   * With no task assigned to it, an existing user is deleted even when it created
   * tasks; an id that selects no row fails with "User not found".
   */
  lemma DeleteUnassigned(t: Tables, id: Value)
    requires Wellformed(t)
    requires forall k :: k in t.tasks ==> !ColumnEq(t.tasks[k].assignedTo, IntegerAffinity(id))
    ensures var s := Delete(t, id);
      Wellformed(s.after) && s.after.tasks == t.tasks &&
      (Selected(t.users, id).Some? ==>
         s.result == Ok(true) && s.after.users == t.users - {Selected(t.users, id).value}) &&
      (Selected(t.users, id).None? ==>
         s == Step(t, Err(Wrap(DeletePrefix, Concat(UserNotFound)))))
  {
    var holders := set k | k in t.tasks && ColumnEq(t.tasks[k].assignedTo, IntegerAffinity(id));
    assert forall x :: x !in holders;
    assert holders == {};
    assert AssignedCount(t, id) == 0;
    DeleteUserKeeps(t, id);
  }
}
