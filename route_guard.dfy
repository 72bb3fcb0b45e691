/** The protected-route wrapper: who is let through to the nested routes, and where the
    others are sent. */
module RouteGuard {
  import opened Wrappers

  /** The signed-in user as far as the guard reads it. */
  datatype Account = Account(role: string)

  datatype Decision =
    | ToLogin(from: string, replace: bool)    // the current location is kept for after login
    | ToHome(replace: bool, toast: string)    // signed in without a listed role
    | Outlet

  const Unauthorized := "Unauthorized! Redirecting to home page"

  /** Whether a role list restricts the route at all: missing and empty lists do not. */
  predicate Restricts(allowedRoles: Option<seq<string>>) {
    allowedRoles.Some? && |allowedRoles.value| > 0
  }

  function Guard(user: Option<Account>, allowedRoles: Option<seq<string>>, location: string): (d: Decision)
    ensures d.ToLogin? <==> user.None?
    ensures d.ToLogin? ==> d.from == location && d.replace
    ensures d.ToHome? <==> user.Some? && Restricts(allowedRoles) && user.value.role !in allowedRoles.value
    ensures d.ToHome? ==> d.replace && d.toast == Unauthorized
    ensures d.Outlet? <==> user.Some? && (!Restricts(allowedRoles) || user.value.role in allowedRoles.value)
  {
    if user.None? then ToLogin(location, true)
    else if Restricts(allowedRoles) && user.value.role !in allowedRoles.value then ToHome(true, Unauthorized)
    else Outlet
  }

  /** Without a role list every signed-in user gets the nested routes. */
  lemma UnrestrictedAdmitsAll(u: Account, allowedRoles: Option<seq<string>>, location: string)
    requires allowedRoles.None? || allowedRoles.value == []
    ensures Guard(Some(u), allowedRoles, location) == Outlet
  {
  }

  /** Adding roles to a non-empty list never shuts out a user it already admitted. (The
      empty list is different: it admits everyone, and adding a role restricts it.) */
  lemma MoreRolesAdmitMore(u: Account, roles: seq<string>, extra: seq<string>, location: string)
    requires roles != [] && Guard(Some(u), Some(roles), location).Outlet?
    ensures Guard(Some(u), Some(roles + extra), location).Outlet?
  {
    var i :| 0 <= i < |roles| && roles[i] == u.role;
    assert (roles + extra)[i] == u.role;
  }
}
