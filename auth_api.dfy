/** The login session routes of backend/api/auth.js. */
module AuthApi {
  import opened Js
  import opened Wrappers
  import opened Sqlite
  import opened Schema
  import opened Users
  import opened Middleware
  import opened Http

  /** `{ id, name, role }` as the routes send a user. */
  datatype UserJson = UserJson(id: Value, name: Value, role: Value)

  datatype AuthJson =
    | LoggedIn(user: UserJson)          // { message: 'Login successful', user }
    | LoggedOut                         // { message: 'Logout successful' }
    | Status(authenticated: bool, sessionUser: Option<UserJson>)
    | Me(user: UserJson)

  function JsonOf(u: UserView): UserJson {
    UserJson(Num(u.id), Str(u.name), Str(RoleName(u.role)))
  }

  /** The session of one browser; `destroy` clears it and the next request starts a fresh one. */
  class Session {
    var userId: Value
    var userName: Value
    var userRole: Value

    function Data(): SessionData
      reads this
    {
      SessionData(userId, userName, userRole)
    }

    constructor ()
      ensures Data() == NoUser
    {
      userId, userName, userRole := Undefined, Undefined, Undefined;
    }

    /**
     * `POST /login`: 400 without a name, 401 for a name no user holds, 500 when the lookup
     * fails; otherwise the session records the stored user. Only success changes the session.
     */
    method Login(t: Tables, name: Value, lookupFails: bool) returns (r: Reply<AuthJson>)
      requires UniqueNames(t.users)
      modifies this
      ensures r.status == 200 <==> Truthy(name) && !lookupFails && GetByName(t, name).Some?
      ensures !Truthy(name) ==> r == Fail(400, "Name is required")
      ensures Truthy(name) && lookupFails ==> r == Fail(500, "Login failed")
      ensures Truthy(name) && !lookupFails && GetByName(t, name).None? ==> r == Fail(401, "Invalid credentials")
      ensures r.status != 200 ==> Data() == old(Data())
      ensures r.status == 200 ==>
        var u := GetByName(t, name).value;
        Data() == SessionData(Num(u.id), Str(u.name), Str(RoleName(u.role))) &&
        r == Send(200, LoggedIn(JsonOf(u)))
    {
      if !Truthy(name) {
        return Fail(400, "Name is required");
      }
      if lookupFails {
        return Fail(500, "Login failed");
      }
      var user := GetByName(t, name);
      if user.None? {
        return Fail(401, "Invalid credentials");
      }
      userId := Num(user.value.id);
      userName := Str(user.value.name);
      userRole := Str(RoleName(user.value.role));
      r := Send(200, LoggedIn(UserJson(Num(user.value.id), Str(user.value.name), Str(RoleName(user.value.role)))));
    }

    /** `POST /logout`: destroys the session unless the store reports an error (500). */
    method Logout(destroyFails: bool) returns (r: Reply<AuthJson>)
      modifies this
      ensures destroyFails ==> r == Fail(500, "Logout failed") && Data() == old(Data())
      ensures !destroyFails ==> r == Send(200, LoggedOut) && Data() == NoUser
    {
      if destroyFails {
        return Fail(500, "Logout failed");
      }
      userId, userName, userRole := Undefined, Undefined, Undefined;
      r := Send(200, LoggedOut);
    }
  }

  /** `GET /status`: echoes the session's own fields; nothing is read from storage. */
  function StatusOf(d: SessionData): (r: Reply<AuthJson>)
    ensures r.status == 200 && r.payload.Json? && r.payload.value.Status?
    ensures r.payload.value.authenticated <==> Truthy(d.userId)
    ensures r.payload.value.authenticated ==> r.payload.value.sessionUser == Some(UserJson(d.userId, d.userName, d.userRole))
    ensures !r.payload.value.authenticated ==> r.payload.value.sessionUser.None?
  {
    if Truthy(d.userId) then Send(200, Status(true, Some(UserJson(d.userId, d.userName, d.userRole))))
    else Send(200, Status(false, None))
  }

  /**
   * `GET /me` behind `requireAuth` and `getCurrentUser`: 401 without a signed-in session,
   * 401 "User not found" when the session's user no longer exists (or the lookup failed),
   * otherwise the stored user.
   */
  function MeOf(d: SessionData, t: Tables, lookupFails: bool): (r: Reply<AuthJson>)
    ensures !Truthy(d.userId) ==> r == Fail(401, "Authentication required")
    ensures Truthy(d.userId) && (lookupFails || GetById(t, d.userId).None?) ==> r == Fail(401, "User not found")
    ensures r.status == 200 <==> Truthy(d.userId) && !lookupFails && GetById(t, d.userId).Some?
    ensures r.status == 200 ==> r == Send(200, Me(JsonOf(GetById(t, d.userId).value)))
  {
    match RequireAuth(Some(d))
    case Deny(code, error) => Fail(code, error)
    case Proceed =>
      match GetCurrentUser(Some(d), t, lookupFails)
      case SetTo(Some(u)) => Send(200, Me(JsonOf(u)))
      case _ => Fail(401, "User not found")
  }

  /** After a successful login the status route reports the user that signed in. */
  method LoginThenStatus(t: Tables, name: Value) returns (r: Reply<AuthJson>)
    requires Wellformed(t) && Truthy(name) && GetByName(t, name).Some?
    ensures r == Send(200, Status(true, Some(JsonOf(GetByName(t, name).value))))
  {
    var session := new Session();
    var _ := session.Login(t, name, false);
    r := StatusOf(session.Data());
  }

  /** After a successful logout the status route reports no user, whoever was signed in. */
  method LogoutThenStatus(d: SessionData) returns (r: Reply<AuthJson>)
    ensures r == Send(200, Status(false, None))
  {
    var session := new Session();
    session.userId, session.userName, session.userRole := d.userId, d.userName, d.userRole;
    var _ := session.Logout(false);
    r := StatusOf(session.Data());
  }

  /** The status route trusts the session even after the user was deleted; `/me` does not. */
  lemma StatusOutlivesUser(d: SessionData, t: Tables)
    requires Truthy(d.userId) && forall k :: k in t.users ==> !KeyMatches(k, d.userId)
    ensures StatusOf(d).payload.value.authenticated
    ensures MeOf(d, t, false) == Fail(401, "User not found")
  {
  }
}
