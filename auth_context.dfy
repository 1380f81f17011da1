/** The authentication context: the signed-in user, the role read from the
    user's profile row, and whether the first session check is still
    running; and the sign-in, sign-up and sign-out calls that move it.
    A user is represented by its id. */
module AuthContext {
  import opened Common
  import opened Queries
  import opened Profiles

  /** What the identity service answers to a sign-in or sign-up: the user
      it returned, if any, and its error, if any. */
  datatype AuthResponse = AuthResponse(user: Option<string>, error: Option<DbError>)

  /** The value the context hands to its consumers. */
  datatype AuthSnapshot = AuthSnapshot(user: Option<string>, role: Option<string>, loading: bool, isAuthenticated: bool)

  const OutsideProvider := "useAuth must be used within an AuthProvider"

  /** `data?.role || null` after the lookup, and null when it failed: a
      role is kept only when it is a non-empty text. */
  function RoleOf(lookup: RoleLookup): (role: Option<string>)
    ensures role.Some? <==> lookup.RoleFound? && Truthy(lookup.role)
    ensures role.Some? ==> role == lookup.role && role.value != ""
  {
    match lookup
    case LookupFailed => None
    case RoleFound(r) => if Truthy(r) then r else None
  }

  /** The role the context settles on for a session user: the non-empty role
      of that user's profile row, and nothing when the row is missing, its
      role is empty, or the read fails. */
  function SessionRole(rows: seq<Profile>, userId: string, queryFails: bool): (role: Option<string>)
    ensures queryFails ==> role.None?
    ensures role.Some? ==> role.value != "" && exists p :: p in rows && p.id == userId && p.role == role
  {
    RoleOf(LookupRole(rows, userId, queryFails))
  }

  /** With unique profile ids and a read that succeeds, the session role is
      exactly the stored role of the user's row when that role is non-empty. */
  lemma SessionRoleIsStoredRole(rows: seq<Profile>, p: Profile)
    requires UniqueBy(rows, ProfileId) && p in rows
    ensures SessionRole(rows, p.id, false) == (if Truthy(p.role) then p.role else None)
  {
    LookupRoleOfRow(rows, p);
  }

  /** `useAuth`: the context's value inside a provider, an error outside. */
  function UseAuth(context: Option<AuthSnapshot>): (r: Result<AuthSnapshot>)
    ensures r.Ok? <==> context.Some?
    ensures r.Ok? ==> r.value == context.value
    ensures r.Err? ==> r.error == Plain(OutsideProvider)
  {
    if context.Some? then Ok(context.value) else Err(Plain(OutsideProvider))
  }

  class AuthState {
    var user: Option<string>
    var role: Option<string>
    var loading: bool

    constructor ()
      ensures user.None? && role.None? && loading
    {
      user := None;
      role := None;
      loading := true;
    }

    /** `isAuthenticated`: a user is present. */
    predicate IsAuthenticated()
      reads this
    {
      user.Some?
    }

    function Snapshot(): (s: AuthSnapshot)
      reads this
      ensures s.isAuthenticated <==> s.user.Some?
      ensures s.user == user && s.role == role && s.loading == loading
    {
      AuthSnapshot(user, role, loading, IsAuthenticated())
    }

    /** `fetchUserAndRole`: the role of the session user's profile row (or
        none), the user itself, and the end of loading. */
    method FetchUserAndRole(sessionUser: Option<string>, rows: seq<Profile>, queryFails: bool)
      modifies this
      ensures user == sessionUser && !loading
      ensures sessionUser.None? ==> role.None?
      ensures sessionUser.Some? ==> role == SessionRole(rows, sessionUser.value, queryFails)
    {
      if sessionUser.Some? {
        var lookup := LookupRole(rows, sessionUser.value, queryFails);
        if lookup.LookupFailed? {
          role := None;
        } else {
          role := if Truthy(lookup.role) then lookup.role else None;
        }
      } else {
        role := None;
      }
      user := sessionUser;
      loading := false;
    }

    /** `signIn`: when the service returns a user, the context takes that
        user and its role; the service's error is returned as it is. */
    method SignIn(response: AuthResponse, rows: seq<Profile>, queryFails: bool) returns (error: Option<DbError>)
      modifies this
      ensures error == response.error
      ensures response.user.Some? ==>
                user == response.user && !loading && role == SessionRole(rows, response.user.value, queryFails)
      ensures response.user.None? ==> user == old(user) && role == old(role) && loading == old(loading)
    {
      if response.user.Some? {
        FetchUserAndRole(response.user, rows, queryFails);
      }
      error := response.error;
    }

    /** `signUp`: sends the account request with `userData` as its
        metadata; state and result as for `signIn`. */
    method SignUp(email: string, password: string, userData: SignUpMetadata, response: AuthResponse,
                  rows: seq<Profile>, queryFails: bool)
      returns (sent: SignUpRequest, error: Option<DbError>)
      modifies this
      ensures sent == SignUpRequest(email, password, userData)
      ensures error == response.error
      ensures response.user.Some? ==>
                user == response.user && !loading && role == SessionRole(rows, response.user.value, queryFails)
      ensures response.user.None? ==> user == old(user) && role == old(role) && loading == old(loading)
    {
      sent := SignUpRequest(email, password, userData);
      if response.user.Some? {
        FetchUserAndRole(response.user, rows, queryFails);
      }
      error := response.error;
    }

    /** `signOut`: no user and no role; loading is left as it was. */
    method SignOut()
      modifies this
      ensures user.None? && role.None? && loading == old(loading)
      ensures !IsAuthenticated()
    {
      user := None;
      role := None;
    }
  }
}
