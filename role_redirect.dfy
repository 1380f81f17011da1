/** The landing redirect: once the session is known, send a signed-out
    visitor to the login page and a signed-in one to the home of the role
    stored in their profile row. */
module RoleRedirect {
  import opened Common
  import opened Queries
  import opened Profiles

  const AdminHome := "/admin/dashboard"
  const OwnerHome := "/owner/dashboard"
  const CustomerHome := "/customer/home"
  const LoginPath := "/login"

  /** The `switch` on the stored role; 'customer', any other text and a null
      role all fall to the customer home. */
  function RouteForRole(role: Option<string>): (route: string)
    ensures route == AdminHome <==> role == Some("admin")
    ensures route == OwnerHome <==> role == Some("turf_owner")
    ensures route == CustomerHome <==> role != Some("admin") && role != Some("turf_owner")
  {
    if role == Some("admin") then AdminHome
    else if role == Some("turf_owner") then OwnerHome
    else CustomerHome
  }

  /** The navigation the effect issues, if any: none while loading, the
      login page without a user, none when the role read fails or finds no
      row, otherwise the role's home. */
  function Redirect(loading: bool, user: Option<string>, rows: seq<Profile>, queryFails: bool): (target: Option<string>)
    ensures loading ==> target.None?
    ensures !loading && user.None? ==> target == Some(LoginPath)
    ensures !loading && user.Some? ==>
              (target.None? <==> LookupRole(rows, user.value, queryFails).LookupFailed?)
    ensures target.Some? && user.Some? ==> target.value in {AdminHome, OwnerHome, CustomerHome}
  {
    if loading then None
    else if user.None? then Some(LoginPath)
    else
      match LookupRole(rows, user.value, queryFails)
      case LookupFailed => None
      case RoleFound(role) => Some(RouteForRole(role))
  }

  /** A signed-in user whose profile row is read sees the home of the role
      stored in that row. */
  lemma RedirectToStoredRole(rows: seq<Profile>, p: Profile)
    requires UniqueBy(rows, ProfileId) && p in rows
    ensures Redirect(false, Some(p.id), rows, false) == Some(RouteForRole(p.role))
    ensures p.role == Some("admin") ==> Redirect(false, Some(p.id), rows, false) == Some(AdminHome)
    ensures p.role == Some("turf_owner") ==> Redirect(false, Some(p.id), rows, false) == Some(OwnerHome)
  {
    LookupRoleOfRow(rows, p);
  }

  /** A signed-in user without a profile row is not redirected at all. */
  lemma NoRowNoRedirect(rows: seq<Profile>, userId: string)
    requires forall p :: p in rows ==> p.id != userId
    ensures Redirect(false, Some(userId), rows, false).None?
  {
    FilterNone(rows, HasId(userId));
  }
}
