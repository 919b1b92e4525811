/** The request gates of backend/middleware/auth.js. */
module Middleware {
  import opened Js
  import opened Wrappers
  import opened Sqlite
  import opened Schema
  import opened Users

  /** The fields the login route stores in the session; a fresh session has none of them. */
  datatype SessionData = SessionData(userId: Value, userName: Value, userRole: Value)

  const NoUser := SessionData(Undefined, Undefined, Undefined)

  /** What a gate does with the request: pass it on (`next()`) or answer it. */
  datatype Gate = Proceed | Deny(status: nat, error: string)

  /** `!req.session || !req.session.userId` */
  predicate SignedIn(s: Option<SessionData>) {
    s.Some? && Truthy(s.value.userId)
  }

  /** `requireAuth`: 401 without a signed-in session, otherwise on to the handler. */
  function RequireAuth(s: Option<SessionData>): (g: Gate)
    ensures g.Proceed? <==> SignedIn(s)
    ensures g.Deny? ==> g == Deny(401, "Authentication required")
  {
    if !SignedIn(s) then Deny(401, "Authentication required") else Proceed
  }

  /**
   * `requireAdmin`: 401 without a signed-in session, 500 when the role lookup fails, 403
   * unless the stored user is an admin. `lookupFails` stands for a database error.
   */
  function RequireAdmin(s: Option<SessionData>, t: Tables, lookupFails: bool): (g: Gate)
    ensures g.Proceed? <==> SignedIn(s) && !lookupFails && IsAdmin(t, s.value.userId)
    ensures !SignedIn(s) ==> g == Deny(401, "Authentication required")
    ensures SignedIn(s) && lookupFails ==> g == Deny(500, "Error checking permissions")
    ensures SignedIn(s) && !lookupFails && !IsAdmin(t, s.value.userId) ==> g == Deny(403, "Admin access required")
  {
    if !SignedIn(s) then Deny(401, "Authentication required")
    else if lookupFails then Deny(500, "Error checking permissions")
    else if !IsAdmin(t, s.value.userId) then Deny(403, "Admin access required")
    else Proceed
  }

  /** `req.user` after `getCurrentUser`: left unset, or set to what `getById` returned. */
  datatype UserSlot = Unset | SetTo(user: Option<UserView>)

  /**
   * `getCurrentUser`: always passes the request on. With a signed-in session and a
   * working lookup it sets `req.user` (to nothing when the user no longer exists).
   */
  function GetCurrentUser(s: Option<SessionData>, t: Tables, lookupFails: bool): (slot: UserSlot)
    ensures slot.SetTo? <==> SignedIn(s) && !lookupFails
    ensures slot.SetTo? ==> slot.user == GetById(t, s.value.userId)
  {
    if SignedIn(s) && !lookupFails then SetTo(GetById(t, s.value.userId)) else Unset
  }

  /** The gate reads the stored role: whatever `userRole` the session carries, the answer is the same. */
  lemma RequireAdminIgnoresSessionRole(d: SessionData, role: Value, t: Tables, lookupFails: bool)
    ensures RequireAdmin(Some(d), t, lookupFails) == RequireAdmin(Some(d.(userRole := role)), t, lookupFails)
  {
  }

  /**
   * A session claiming the admin role is refused when the stored user is not an admin,
   * and a session without the claim passes when it is.
   */
  lemma RequireAdminStoredRole(d: SessionData, t: Tables)
    requires Truthy(d.userId)
    ensures (forall k :: k in t.users && KeyMatches(k, d.userId) ==> t.users[k].role != Admin) ==>
      RequireAdmin(Some(d.(userRole := Str("admin"))), t, false) == Deny(403, "Admin access required")
    ensures (exists k :: k in t.users && KeyMatches(k, d.userId) && t.users[k].role == Admin) ==>
      RequireAdmin(Some(d.(userRole := Undefined)), t, false) == Proceed
  {
  }

  /** Passing the admin gate implies passing the authentication gate. */
  lemma AdminImpliesAuth(s: Option<SessionData>, t: Tables, lookupFails: bool)
    ensures RequireAdmin(s, t, lookupFails).Proceed? ==> RequireAuth(s).Proceed?
  {
  }
}
