/** The route guard: what a guarded page renders given the session and the
    role lookup, and the effect that looks the role up when the route
    restricts roles. */
module ProtectedRoute {
  import opened Common
  import opened Profiles

  /** What the guard renders: the spinner, a redirect to the login page
      carrying the page asked for, a redirect home, or the page itself. */
  datatype Render = Spinner | RedirectLogin(from: string) | RedirectHome | Children

  /** `allowedRoles && userRole && !allowedRoles.includes(userRole)`: a list
      (even an empty one) is given and the role is a known, non-empty text
      outside it. */
  predicate RoleRejected(allowedRoles: Option<seq<string>>, userRole: Option<string>) {
    allowedRoles.Some? && Truthy(userRole) && userRole.value !in allowedRoles.value
  }

  /** The render decision, checked in this order: loading, authentication
      required, guest-only page, role; otherwise the page. */
  function Decide(loading: bool, roleLoading: bool, requireAuth: bool, isAuthenticated: bool,
                  allowedRoles: Option<seq<string>>, userRole: Option<string>, location: string): (r: Render)
    ensures r == Spinner <==> loading || roleLoading
    ensures r.RedirectLogin? <==> !loading && !roleLoading && requireAuth && !isAuthenticated
    ensures r.RedirectLogin? ==> r.from == location
    ensures r == RedirectHome <==>
              !loading && !roleLoading && !(requireAuth && !isAuthenticated)
              && ((!requireAuth && isAuthenticated) || RoleRejected(allowedRoles, userRole))
    ensures r == Children <==>
              !loading && !roleLoading && requireAuth == isAuthenticated && !RoleRejected(allowedRoles, userRole)
  {
    if loading || roleLoading then Spinner
    else if requireAuth && !isAuthenticated then RedirectLogin(location)
    else if !requireAuth && isAuthenticated then RedirectHome
    else if RoleRejected(allowedRoles, userRole) then RedirectHome
    else Children
  }

  /** A page that needs a session is shown only to a signed-in user whose
      role is allowed, unknown or empty. */
  lemma ChildrenOnlyWhenAllowed(loading: bool, roleLoading: bool, isAuthenticated: bool,
                                allowedRoles: Option<seq<string>>, userRole: Option<string>, location: string)
    requires Decide(loading, roleLoading, true, isAuthenticated, allowedRoles, userRole, location) == Children
    ensures isAuthenticated
    ensures allowedRoles.None? || userRole.None? || userRole.value == "" || userRole.value in allowedRoles.value
  {
  }

  /** A role that could not be read lets a signed-in user through even on a
      page with a role list. */
  lemma UnknownRoleRendersPage(allowedRoles: seq<string>, location: string)
    ensures Decide(false, false, true, true, Some(allowedRoles), None, location) == Children
  {
  }

  /** The role a successful read gives: the row's role as stored (an empty
      text stays empty); a failed read gives none. */
  function FetchedRole(lookup: RoleLookup): (role: Option<string>)
    ensures lookup.LookupFailed? ==> role.None?
    ensures lookup.RoleFound? ==> role == lookup.role
  {
    if lookup.RoleFound? then lookup.role else None
  }

  class RouteGuard {
    var userRole: Option<string>
    var roleLoading: bool

    constructor ()
      ensures userRole.None? && roleLoading
    {
      userRole := None;
      roleLoading := true;
    }

    /** The render with the guard's own role state. */
    function View(loading: bool, requireAuth: bool, isAuthenticated: bool,
                  allowedRoles: Option<seq<string>>, location: string): (r: Render)
      reads this
    {
      Decide(loading, roleLoading, requireAuth, isAuthenticated, allowedRoles, userRole, location)
    }

    /** The effect: without a user or without a role list, no read happens
        and the role loading ends; otherwise the user's role is read and
        the loading ends whatever the read gives. */
    method RoleEffect(user: Option<string>, allowedRoles: Option<seq<string>>, rows: seq<Profile>, queryFails: bool)
      modifies this
      ensures !roleLoading
      ensures user.None? || allowedRoles.None? ==> userRole == old(userRole)
      ensures user.Some? && allowedRoles.Some? ==> userRole == FetchedRole(LookupRole(rows, user.value, queryFails))
      ensures user.Some? && allowedRoles.Some? && queryFails ==> userRole.None?
    {
      if user.None? || allowedRoles.None? {
        roleLoading := false;
        return;
      }
      var lookup := LookupRole(rows, user.value, queryFails);
      if lookup.LookupFailed? {
        userRole := None;
      } else {
        userRole := lookup.role;
      }
      roleLoading := false;
    }
  }
}
