/**
 * The route guard every protected page sits behind, and the dashboard each role is sent to.
 */
module Routes {
  import opened Wrappers
  import opened Auth

  const LOGIN: string := "/login"
  const ADMIN_HOME: string := "/admin"
  const GROUP_LEADER_HOME: string := "/groupleader"
  const PLAYER_HOME: string := "/player"

  /** Admin and GroupLeader have their own dashboards; every other role lands on the player's. */
  function DashboardFor(role: string): (path: string)
    ensures role == ADMIN <==> path == ADMIN_HOME
    ensures role == GROUP_LEADER <==> path == GROUP_LEADER_HOME
    ensures role != ADMIN && role != GROUP_LEADER <==> path == PLAYER_HOME
  {
    if role == ADMIN then ADMIN_HOME
    else if role == GROUP_LEADER then GROUP_LEADER_HOME
    else PLAYER_HOME
  }

  /** The signed-in user as the page context holds it. */
  datatype SessionUser = SessionUser(userId: string, email: string, role: string)

  datatype Guard = Loading | Redirect(to: string) | Render

  /**
   * `PrivateRoute`: the loading view first, then the login page without a user, then the
   * page itself when no role is required or the user has it, else the user's dashboard.
   */
  function Decide(loading: bool, user: Option<SessionUser>, requiredRole: Option<string>): (g: Guard)
    ensures loading ==> g == Loading
    ensures !loading && user.None? ==> g == Redirect(LOGIN)
    ensures !loading && user.Some? ==>
      && (g == Render <==> requiredRole.None? || requiredRole.value == "" || requiredRole.value == user.value.role)
      && (g != Render ==> g == Redirect(DashboardFor(user.value.role)))
  {
    if loading then Loading
    else if user.None? then Redirect(LOGIN)
    else if requiredRole.Some? && requiredRole.value != "" && user.value.role != requiredRole.value then
      Redirect(DashboardFor(user.value.role))
    else Render
  }

  /** The role each dashboard route requires: the Admin and GroupLeader pages theirs, the player page none. */
  function RequiredRoleOf(dashboard: string): Option<string> {
    if dashboard == ADMIN_HOME then Some(ADMIN)
    else if dashboard == GROUP_LEADER_HOME then Some(GROUP_LEADER)
    else None
  }

  /** A redirect on a role mismatch always lands on a page the user may see, so it never loops. */
  lemma RedirectLandsOnOwnDashboard(user: SessionUser, requiredRole: Option<string>)
    ensures var g := Decide(false, Some(user), requiredRole);
      g.Redirect? ==> Decide(false, Some(user), RequiredRoleOf(g.to)) == Render
  {
  }

  /** There is no role hierarchy: an Admin is sent away from a GroupLeader page. */
  lemma AdminLeavesGroupLeaderPages(user: SessionUser)
    requires user.role == ADMIN
    ensures Decide(false, Some(user), Some(GROUP_LEADER)) == Redirect(ADMIN_HOME)
  {
  }
}
